# TUNEL extension for QuPath, modelled in Dafny

This project models the core of the QuPath TUNEL extension (`qupath-extension-tunel`):

- **Active learning.** Two review panels show one detection at a time, let the user confirm or change its class, and
  commit the reviewed object to a training set of points annotations. Behind them sit:
  - the panels' object servers, which cluster the detections and serve them round-robin, lowest class probability first;
  - the sample proposals (sorted, random, clustering, sorted clustering);
  - the clusterer wrappers around k-means++ and DBSCAN.
- **Classification.** It covers:
  - the confusion matrix and the statistics helper;
  - the example classifier command, with its training map, label decoding and feature matrices;
  - the random forest wrapper, with its label column, incremental training and prediction.
- **Detection.** It covers:
  - the merge of overlapping detections from several channels;
  - the parameter handling of the watershed and threshold detectors (detection channel, thresholding method, adaptive
    method, result description);
  - the watershed detector's per-nucleus intensity statistics.
- **ImageJ/OpenCV conversion.** Processors are turned into `Mat`s and back.
- **Saving detection images.** This covers the save button's guards, the object filter, the class sub-folders and the
  per-class counts.

Modules, one per file:

| file | module | covers |
|---|---|---|
| basics.dfy | `Basics` | Option, Java exceptions as `Outcome`, filtering, number rendering |
| domain.dfy | `Domain` | `Double` with `Double.compare`'s order, classifications, path objects, iterators |
| prob_sort.dfy | `ProbSort` | the stable sort by class probability |
| al_server.dfy | `ALServer2` | the object server of `ActiveLearningPanel2` |
| al_server_v1.dfy | `ALServer1` | the object server and panel of `ActiveLearningPanel` |
| training.dfy | `TrainingSet2` | `addTotTraining` and `removeDuplicate` of `ActiveLearningPanel2` |
| al_session.dfy | `ALSession2` | the construction, clicks and hierarchy listener of `ActiveLearningPanel2` |
| proposals.dfy | `Proposals` | abstract, sorted and random sample proposals |
| cluster_proposals.dfy | `ClusterProposals` | clustering and sorted clustering sample proposals |
| clusterer.dfy | `Clusterers` | `ClusterableObject`, `AbstractClusterer`, k-means and DBSCAN |
| confusion.dfy | `Confusion` | `ConfusionMatrix` and `ClassifierStatisticsHelper` |
| classifier.dfy | `Classifiers` | `ClassifierExampleCommand` and `RandomForestClassifier` |
| overlap.dfy | `Overlap` | `handleOverlappingObjects` of `TunelDetectionHelper` |
| converters.dfy | `Converters` | `ImagePlusToMatConverter` and `MatToImagePlusConverter` |
| detection.dfy | `Detection` | parameter handling and statistics of the two detectors |
| save_detections.dfy | `SaveDetections` | `SaveDetectionImagesCommand` |

How the model represents the code:

- **Path objects are values.** Each has an `id` that stands for the Java reference: two objects with equal fields but
  different ids are different objects.
- **Exceptions are results.** A method that can throw returns `Outcome` (`Returned(value)` or `Thrown(exception)`),
  naming the Java exception.
- **Iterators.** A Java iterator is a `Cursor`: the list and the position of the next element. No modelled list is
  changed while an iterator over it is alive, so this is what the live iterator sees.
- **Things outside the model are parameters.** These are:
  - the order in which a `HashMap` hands back its keys or values;
  - the clustering library's result;
  - the random draws;
  - the forest's prediction;
  - the ROI containment test.

  Every property proved holds for every value of these.
- **Objects whose fields the code updates in place are classes.** These are the servers, proposals, panels, matrices,
  the classifier and the forest. Each such class has a `State()` function, and its methods are proved against
  specification functions on that state.

Two consequences of the code are worth stating up front:

- `Double.compare` puts NaN after every number, so NaN objects sort last (`Domain.NaNIsGreatest`).
- Every commit appends a new point (`TrainingSet2.CommitTwiceAddsTwo`, `ALServer1.CommitsAddOneEach`).

## Model

| member | source | states |
|---|---|---|
| Domain.Compare | src/main/java/qupath/lib/active_learning/SortedSampleProposal.java:26-29 | `Double.compare` gives -1, 0 or 1; 0 exactly for equal values; NaN compares above every number |
| Domain.CompareAntisymmetric | src/main/java/qupath/lib/active_learning/SortedSampleProposal.java:26-29 | swapping the two probabilities negates the comparison |
| Domain.NotAfterTotal | src/main/java/qupath/lib/active_learning/SortedSampleProposal.java:24-30 | any two objects are ordered one way or the other by the comparator |
| Domain.NotAfterTransitive | src/main/java/qupath/lib/active_learning/SortedSampleProposal.java:24-30 | the comparator's order is transitive, so the sort's contract holds |
| Domain.NaNIsGreatest | src/main/java/qupath/lib/active_learning/SortedSampleProposal.java:28 | a NaN probability goes after every number and ties only with NaN: NaN objects come last |
| Domain.MeasurementValueSpec | src/main/java/qupath/lib/active_learning/ClusterableObject.java:23 | a missing measurement reads as NaN; a present one reads as the value of its first entry |
| ProbSort.SortByProbSpec | src/main/java/qupath/lib/active_learning/SortedSampleProposal.java:40-50 | the sort's output is ascending by probability and a permutation of its input |
| ProbSort.SortByProbSorted | src/main/java/qupath/lib/active_learning/SortedSampleProposal.java:40-50 | the sorted list is ascending by `Double.compare` on class probability |
| ProbSort.SortByProbPermutes | src/main/java/qupath/lib/active_learning/SortedSampleProposal.java:40-50 | sorting neither loses nor adds objects (multiset equality) |
| ProbSort.SortByProbStable | src/main/java/qupath/lib/active_learning/SortedSampleProposal.java:40-50 | objects of equal probability keep their input order, as `Collections.sort` guarantees |
| ProbSort.SortByProbIdempotent | src/main/java/qupath/lib/active_learning/SortedSampleProposal.java:66-68 | re-sorting an already sorted list (as `reset` does) changes nothing, ties included |
| ProbSort.SortByProbTwice | src/main/java/qupath/lib/active_learning/SortedSampleProposal.java:66-68 | sorting twice is sorting once |
| ProbSort.InsertPermutes | src/main/java/qupath/lib/active_learning/SortedSampleProposal.java:40-50 | one insertion step adds exactly the inserted object |
| ProbSort.InsertSorted | src/main/java/qupath/lib/active_learning/SortedSampleProposal.java:40-50 | one insertion step keeps the list sorted |
| ProbSort.InsertStable | src/main/java/qupath/lib/active_learning/SortedSampleProposal.java:40-50 | one insertion step puts the new object after the earlier objects of its probability |
| ALServer2.NextCluster | src/main/java/qupath/lib/active_learning/ActiveLearningPanel2.java:758-760 | after a step the pointer is the next cluster, wrapped to 0 once it reaches the cluster count |
| ALServer2.Relabelled | src/main/java/qupath/lib/active_learning/ActiveLearningPanel2.java:663-673 | the i-th library cluster is stored under key i; other keys keep their old lists |
| ALServer2.PutClusters | src/main/java/qupath/lib/active_learning/ActiveLearningPanel2.java:663-673 | the put loop builds exactly that relabelled map |
| ALServer2.SortClusters | src/main/java/qupath/lib/active_learning/ActiveLearningPanel2.java:677-687 | the sort loop replaces every list of the map by its probability-sorted version |
| ALServer2.ResetIterators | src/main/java/qupath/lib/active_learning/ActiveLearningPanel2.java:690-692 | the iterator loop gives every key of the map a fresh iterator and keeps the others |
| ALServer2.ShapeFeatureRow | src/main/java/qupath/lib/active_learning/ActiveLearningPanel2.java:711-723 | a feature row holds the values of the shape measurements, in measurement order |
| ALServer2.ShapeFeatureRowSpec | src/main/java/qupath/lib/active_learning/ActiveLearningPanel2.java:715-722 | a measurement is in the row exactly when its name avoids the excluded words; splitting the list splits the row |
| ALServer2.Server.constructor | src/main/java/qupath/lib/active_learning/ActiveLearningPanel2.java:567-595 | the new server's state is the filtered hierarchy with no clusters and one cluster requested |
| ALServer2.Server.SetClusterCount | src/main/java/qupath/lib/active_learning/ActiveLearningPanel2.java:601-603 | only the cluster count changes |
| ALServer2.Server.ClusterPathObjects | src/main/java/qupath/lib/active_learning/ActiveLearningPanel2.java:617-699 | the server's new state is the clustering specification applied to the old one |
| ALServer2.Server.ServeNext | src/main/java/qupath/lib/active_learning/ActiveLearningPanel2.java:739-766 | the return value and new state are the serving specification applied to the old state |
| ALServer2.InitialFilters | src/main/java/qupath/lib/active_learning/ActiveLearningPanel2.java:577-593 | the list holds exactly the hierarchy's classified, non-"Image", non-annotation, non-points objects; the pointer starts at 0 and the count at 1 |
| ALServer2.InitialKeepsOrder | src/main/java/qupath/lib/active_learning/ActiveLearningPanel2.java:577-593 | the constructor's filter keeps hierarchy order |
| ALServer2.ClusterTooFew | src/main/java/qupath/lib/active_learning/ActiveLearningPanel2.java:619-621 | with fewer than two objects clustering changes nothing |
| ALServer2.ServeAfterTooFewThrows | src/main/java/qupath/lib/active_learning/ActiveLearningPanel2.java:742-744 | a server over at most one object has no iterator, so its first serve throws a null pointer exception |
| ALServer2.ClusterSingle | src/main/java/qupath/lib/active_learning/ActiveLearningPanel2.java:623-641 | below two clusters the whole list is sorted in place and installed as cluster 0 with a fresh iterator |
| ALServer2.ClusterMany | src/main/java/qupath/lib/active_learning/ActiveLearningPanel2.java:644-692 | from two clusters up, library cluster i goes under key i; every list, stale keys included, is sorted and gets a fresh iterator; the pointer and the last object stay |
| ALServer2.InitialTracks | src/main/java/qupath/lib/active_learning/ActiveLearningPanel2.java:567-595 | a new server's iterators walk their own clusters |
| ALServer2.ClusteredTracks | src/main/java/qupath/lib/active_learning/ActiveLearningPanel2.java:617-699 | clustering keeps every iterator on its own cluster's list |
| ALServer2.ServedTracks | src/main/java/qupath/lib/active_learning/ActiveLearningPanel2.java:739-766 | serving keeps every iterator on its own cluster's list |
| ALServer2.ServeAvailable | src/main/java/qupath/lib/active_learning/ActiveLearningPanel2.java:754-765 | from a cluster with objects left, its next object in sorted order is returned and recorded, its iterator moves on, the pointer steps, nothing else changes |
| ALServer2.ServeDrained | src/main/java/qupath/lib/active_learning/ActiveLearningPanel2.java:744-752 | from a drained cluster the last served object is returned again and only the pointer steps |
| ALServer2.ServeMissing | src/main/java/qupath/lib/active_learning/ActiveLearningPanel2.java:742-744 | a pointer without an iterator throws a null pointer exception and changes nothing |
| ALServer2.DrainedStaysDrained | src/main/java/qupath/lib/active_learning/ActiveLearningPanel2.java:744-752 | once every cluster is drained each call returns the same last object |
| ALServer2.ServedPointerInRange | src/main/java/qupath/lib/active_learning/ActiveLearningPanel2.java:747-760 | the pointer stays in [0, clusterCount), or at 0 |
| ALServer2.ClusteredBelongs | src/main/java/qupath/lib/active_learning/ActiveLearningPanel2.java:617-699 | after clustering every list holds only the server's objects |
| ALServer2.ServedBelongs | src/main/java/qupath/lib/active_learning/ActiveLearningPanel2.java:739-766 | whatever is served is one of the server's objects |
| ALServer2.ThreeObjectScenario | src/main/java/qupath/lib/active_learning/ActiveLearningPanel2.java:617-766 | with probabilities 0.9, 0.1, 0.5 and two clusters, the calls serve the clusters' lowest probabilities round-robin: C, B, then A |
| ALServer2.AheadWraps | src/main/java/qupath/lib/active_learning/ActiveLearningPanel2.java:758-760 | j steps from p reach p + j, wrapped once at the cluster count |
| ALServer2.RoundRobin | src/main/java/qupath/lib/active_learning/ActiveLearningPanel2.java:739-766 | while the next n ≤ clusterCount clusters have objects, n calls serve the next object of each, in pointer order |
| ALServer1.Server1.constructor | src/main/java/qupath/lib/active_learning/ActiveLearningPanel.java:428-452 | the new server's state keeps the hierarchy's reviewable objects, with the given cluster count |
| ALServer1.Server1.ClusterPathObjects | src/main/java/qupath/lib/active_learning/ActiveLearningPanel.java:458-515 | the new state is this server's clustering specification applied to the old one |
| ALServer1.Server1.ServeNext | src/main/java/qupath/lib/active_learning/ActiveLearningPanel.java:517-542 | the return value and new state are this server's serving specification |
| ALServer1.Initial1Filters | src/main/java/qupath/lib/active_learning/ActiveLearningPanel.java:437-450 | the list holds exactly the classified non-annotation objects whose class is not "Image", points included, in hierarchy order |
| ALServer1.PointsKeptOnlyHere | src/main/java/qupath/lib/active_learning/ActiveLearningPanel.java:437-450 | a points-ROI detection is served by this server but not by the second panel's |
| ALServer1.Clustered1Small | src/main/java/qupath/lib/active_learning/ActiveLearningPanel.java:460-467 | an empty list builds nothing; one object or fewer than two clusters store the unsorted list as cluster 0 with no iterator |
| ALServer1.SmallServerThrows | src/main/java/qupath/lib/active_learning/ActiveLearningPanel.java:517-520 | such a server throws on its first serve |
| ALServer1.Clustered1Many | src/main/java/qupath/lib/active_learning/ActiveLearningPanel.java:481-508 | library cluster i is stored under key i, in library order, and every key gets a fresh iterator |
| ALServer1.Served1Available | src/main/java/qupath/lib/active_learning/ActiveLearningPanel.java:527-539 | from a cluster with objects left, its next object is returned and recorded and the pointer steps with wrap |
| ALServer1.StuckOnDrained | src/main/java/qupath/lib/active_learning/ActiveLearningPanel.java:520-525 | once the pointer rests on a drained cluster every later call returns the same object and nothing changes |
| ALServer1.RebuiltThree | src/main/java/qupath/lib/active_learning/ActiveLearningPanel.java:365-371 | start-up and each hierarchy change give a fresh three-cluster server with its pointer at 0 |
| ALServer1.OpenedShowsFirstOfCluster | src/main/java/qupath/lib/active_learning/ActiveLearningPanel.java:76-175 | opening succeeds exactly when two objects are reviewable and the library's first cluster is not empty; that cluster's first object goes on screen |
| ALServer1.CommitsAddOneEach | src/main/java/qupath/lib/active_learning/ActiveLearningPanel.java:229-327 | n commits add n annotations, the i-th holding only the i-th object with its ROI and class |
| ALServer1.Panel1.constructor | src/main/java/qupath/lib/active_learning/ActiveLearningPanel.java:76-91 | a fresh three-cluster server, clustered; nothing on screen, no annotations, no events |
| ALServer1.Panel1.Open | src/main/java/qupath/lib/active_learning/ActiveLearningPanel.java:76-175 | the panel exists exactly when the first serve returns an object, which goes on screen; otherwise the constructor throws |
| ALServer1.Panel1.HierarchyChanged | src/main/java/qupath/lib/active_learning/ActiveLearningPanel.java:365-371 | a fresh rebuilt server replaces the old one; the annotations stay |
| ALServer1.Panel1.AddToTraining | src/main/java/qupath/lib/active_learning/ActiveLearningPanel.java:322-327 | one annotation holding the object is added; both its events reach the listener, and each rebuilds the server, which ends fresh, with three clusters, over the hierarchy |
| TrainingSet2.FirstAt | src/main/java/qupath/lib/active_learning/ActiveLearningPanel2.java:440-446 | the index of the first child at the point, or -1 exactly when no child is there |
| TrainingSet2.DuplicateIn | src/main/java/qupath/lib/active_learning/ActiveLearningPanel2.java:434-448 | the duplicate found is a child at the point, in a mapped annotation other than the object's class's, at the first such index |
| TrainingSet2.DuplicateInSpec | src/main/java/qupath/lib/active_learning/ActiveLearningPanel2.java:427-448 | a duplicate is found exactly when some mapped annotation other than the class's has a child at the point; the last such annotation in scan order is chosen, with its first child there |
| TrainingSet2.PreviousAnnotation | src/main/java/qupath/lib/active_learning/ActiveLearningPanel2.java:360-370 | the reused annotation is named "Active Learning" and carries the class; a classless one so named throws a null pointer exception |
| TrainingSet2.AnnotationFor | src/main/java/qupath/lib/active_learning/ActiveLearningPanel2.java:357-382 | the annotation chosen carries the class and the map is untouched; a new one is made exactly when no earlier annotation exists, and adding it fires one event with the listener as it was |
| TrainingSet2.Committed | src/main/java/qupath/lib/active_learning/ActiveLearningPanel2.java:350-425 | a commit that returns keeps the integrator consistent (its events are stated by `CommitKeepsValid`) |
| TrainingSet2.Integrator.constructor | src/main/java/qupath/lib/active_learning/ActiveLearningPanel2.java:108 | the annotation map starts empty over the hierarchy's existing annotations |
| TrainingSet2.Integrator.RemoveDuplicate | src/main/java/qupath/lib/active_learning/ActiveLearningPanel2.java:427-467 | the new state is the duplicate-removal specification |
| TrainingSet2.Integrator.FindPreviousAnnotation | src/main/java/qupath/lib/active_learning/ActiveLearningPanel2.java:360-370 | the scan returns the previous-session annotation specification |
| TrainingSet2.Integrator.OpenAnnotation | src/main/java/qupath/lib/active_learning/ActiveLearningPanel2.java:357-382 | find-or-create follows its specification, changing nothing when it throws |
| TrainingSet2.Integrator.AppendPoint | src/main/java/qupath/lib/active_learning/ActiveLearningPanel2.java:388-390 | the annotation gains the point detection as its specification says |
| TrainingSet2.Integrator.Notify | src/main/java/qupath/lib/active_learning/ActiveLearningPanel2.java:418-424 | the listener is detached around one notification, then the map is updated |
| TrainingSet2.Integrator.AddToTraining | src/main/java/qupath/lib/active_learning/ActiveLearningPanel2.java:350-425 | the commit follows `Committed`; a throwing commit changes nothing |
| TrainingSet2.RemovedDuplicateKeepsValid | src/main/java/qupath/lib/active_learning/ActiveLearningPanel2.java:427-467 | removing a duplicate keeps every identity valid and the annotation set |
| TrainingSet2.NamedWithoutClassThrows | src/main/java/qupath/lib/active_learning/ActiveLearningPanel2.java:363-365 | any classless "Active Learning" annotation in the hierarchy makes the scan throw |
| TrainingSet2.RemoveFirstAt | src/main/java/qupath/lib/active_learning/ActiveLearningPanel2.java:450-466 | removing the first equal child removes exactly the matched index |
| TrainingSet2.RemovedDuplicateEffect | src/main/java/qupath/lib/active_learning/ActiveLearningPanel2.java:427-467 | at most one child goes: the first child at the point in a mapped annotation not of the object's class; the map, hierarchy and events stay |
| TrainingSet2.RemovedDuplicateLast | src/main/java/qupath/lib/active_learning/ActiveLearningPanel2.java:427-467 | with no such annotation nothing changes; otherwise the last one in scan order loses exactly its first child at the point and its first ROI point equal to it, and nothing else changes |
| TrainingSet2.TargetUntouched | src/main/java/qupath/lib/active_learning/ActiveLearningPanel2.java:385-394 | the annotation a commit goes to is never the one stripped |
| TrainingSet2.UnmappedClassNotTarget | src/main/java/qupath/lib/active_learning/ActiveLearningPanel2.java:357-394 | a class not yet mapped has no mapped annotation carrying it |
| TrainingSet2.CommitAppendsOne | src/main/java/qupath/lib/active_learning/ActiveLearningPanel2.java:350-425 | the class's annotation gains exactly one point child at the centroid; its ROI gains the point (mapped), is the point (new) or stays (reused) |
| TrainingSet2.CommitThrowsIff | src/main/java/qupath/lib/active_learning/ActiveLearningPanel2.java:357-370 | a commit throws exactly when the class is unmapped and a classless "Active Learning" annotation exists |
| TrainingSet2.CommitKeepsValid | src/main/java/qupath/lib/active_learning/ActiveLearningPanel2.java:350-425 | a commit maps the class, re-attaches the listener and keeps the integrator consistent; it fires an added-object event with the listener attached when it creates the annotation, then one classification event with it detached |
| TrainingSet2.CommitHeardIff | src/main/java/qupath/lib/active_learning/ActiveLearningPanel2.java:357-425 | the listener hears a commit exactly when the commit creates the class's annotation while the panel listens |
| TrainingSet2.CommitTwiceAddsTwo | src/main/java/qupath/lib/active_learning/ActiveLearningPanel2.java:395-416 | committing an object twice leaves two point children at its centroid: commits are not idempotent |
| ALSession2.SetupNext | src/main/java/qupath/lib/active_learning/ActiveLearningPanel2.java:288-309 | the shown object is what the server serves; a null one throws |
| ALSession2.CommitIf | src/main/java/qupath/lib/active_learning/ActiveLearningPanel2.java:212-243 | without "add to training" nothing is committed; a throwing commit leaves the training set as it was |
| ALSession2.OpenedShowsLeastProbable | src/main/java/qupath/lib/active_learning/ActiveLearningPanel2.java:92-206 | opening the panel throws exactly when at most one object is reviewable; otherwise the reviewable object of lowest probability goes on screen |
| ALSession2.RebuiltForgetsServed | src/main/java/qupath/lib/active_learning/ActiveLearningPanel2.java:517-527 | a rebuilt server has its pointer at 0, nothing served, the slider's count, and the hierarchy's reviewable objects |
| ALSession2.ChangeClassCommitsShownObject | src/main/java/qupath/lib/active_learning/ActiveLearningPanel2.java:212-227 | "Change class" commits the object on screen, relabelled with probability 1.0, and shows the served one; the server is rebuilt exactly when the commit creates the class's annotation while the panel listens |
| ALSession2.NoTrainingWithoutAddTrain | src/main/java/qupath/lib/active_learning/ActiveLearningPanel2.java:212-243 | without "add to training" neither click touches the training set, and "Change class" leaves the server as serving left it |
| ALSession2.ConfirmAsWrittenCommitsNext | src/main/java/qupath/lib/active_learning/ActiveLearningPanel2.java:232-243 | as written, "Confirm" commits the newly served object instead of the confirmed one |
| ALSession2.ConfirmCommitsConfirmed | src/main/java/qupath/lib/active_learning/ActiveLearningPanel2.java:232-243 | the corrected click commits the confirmed object with probability 1.0 and shows the next one |
| ALSession2.ConfirmScenarioDiffers | src/main/java/qupath/lib/active_learning/ActiveLearningPanel2.java:232-243 | for a concrete session the two clicks put the training point at different positions |
| ALSession2.Panel.constructor | src/main/java/qupath/lib/active_learning/ActiveLearningPanel2.java:92-108 | a one-cluster server over the hierarchy's objects, clustered; an empty map over the hierarchy's annotations; nothing on screen yet |
| ALSession2.Panel.Open | src/main/java/qupath/lib/active_learning/ActiveLearningPanel2.java:92-206 | the panel exists exactly when the first serve returns an object, which goes on screen; otherwise the constructor throws |
| ALSession2.Panel.SetupNextObject | src/main/java/qupath/lib/active_learning/ActiveLearningPanel2.java:288-309 | the server's new state and the result follow `SetupNext` |
| ALSession2.Panel.SlideClusterCount | src/main/java/qupath/lib/active_learning/ActiveLearningPanel2.java:528-537 | the slider and the server's count take the new value; nothing is reclustered |
| ALSession2.Panel.HierarchyChanged | src/main/java/qupath/lib/active_learning/ActiveLearningPanel2.java:517-527 | a fresh server over the hierarchy's objects, with the slider's count, clustered, replaces the old one |
| ALSession2.Panel.CommitIfAsked | src/main/java/qupath/lib/active_learning/ActiveLearningPanel2.java:212-243 | the integrator's new state and the exception follow `CommitIf`; the server is rebuilt exactly when the listener heard the commit |
| ALSession2.Panel.ClickChangeClass | src/main/java/qupath/lib/active_learning/ActiveLearningPanel2.java:212-227 | the new state, rebuild included, and the exception follow the change-class specification |
| ALSession2.Panel.ClickConfirmClass | src/main/java/qupath/lib/active_learning/ActiveLearningPanel2.java:232-243 | the new state, rebuild included, and the exception follow the confirm click as written |
| Proposals.BaseProposal.constructor | src/main/java/qupath/lib/active_learning/AbstractSampleProposal.java:23-25 | the proposal keeps the caller's list itself and has no current object |
| Proposals.BaseProposal.ServeObject | src/main/java/qupath/lib/active_learning/AbstractSampleProposal.java:27-29 | serving returns the current object and changes nothing |
| Proposals.SortInPlace | src/main/java/qupath/lib/active_learning/SortedSampleProposal.java:40-50 | the shared array ends sorted by probability, as `SortByProb` of its old contents |
| Proposals.SortedServedWalks | src/main/java/qupath/lib/active_learning/SortedSampleProposal.java:53-58 | from position k the j-th call returns element k + j, then the last element for ever |
| Proposals.SortedProposal.constructor | src/main/java/qupath/lib/active_learning/SortedSampleProposal.java:21-34 | the caller's list is sorted in place, an iterator is put at its front and the first element is current |
| Proposals.SortedProposal.Sort | src/main/java/qupath/lib/active_learning/SortedSampleProposal.java:40-50 | the shared list is re-sorted and serving restarts from its front |
| Proposals.SortedProposal.Reset | src/main/java/qupath/lib/active_learning/SortedSampleProposal.java:66-68 | reset is a re-sort |
| Proposals.SortedProposal.ServeObject | src/main/java/qupath/lib/active_learning/SortedSampleProposal.java:53-58 | the result, iterator and current object follow the serving specification |
| Proposals.SortedProposalOrder | src/main/java/qupath/lib/active_learning/SortedSampleProposal.java:21-58 | a new proposal serves the sorted list from lowest probability up, the first call repeating the current element, then the last for ever |
| Proposals.FirstAccepted | src/main/java/qupath/lib/active_learning/RandomSampleProposal.java:32-38 | the index of the first kept draw, every earlier draw rejected |
| Proposals.RandomServedSpec | src/main/java/qupath/lib/active_learning/RandomSampleProposal.java:29-44 | an object of the list is returned and remembered; no repeats while some object is unproposed; an empty list throws |
| Proposals.RandomProposal.constructor | src/main/java/qupath/lib/active_learning/RandomSampleProposal.java:22-26 | nothing has been proposed and there is no current object |
| Proposals.RandomProposal.ServeObject | src/main/java/qupath/lib/active_learning/RandomSampleProposal.java:29-44 | the result and new state follow the random-serve specification |
| ClusterProposals.SweepSpec | src/main/java/qupath/lib/active_learning/ClusteringSampleProposal.java:55-62 | the sweep passes only drained clusters, in pointer order, takes at most one round, and stops on a cluster with objects left or a missing iterator |
| ClusterProposals.BuiltClusters | src/main/java/qupath/lib/active_learning/ClusteringSampleProposal.java:23-40 | construction clusters into five clusters whatever the cluster count, each with a fresh iterator, the pointer at 0 |
| ClusterProposals.InitializeCursors | src/main/java/qupath/lib/active_learning/SortedClusteringSampleProposal.java:34-43 | the plain `initialize` overwrites the iterator of each key and keeps stale ones; the sorted one clears them first |
| ClusterProposals.ResetSortedSpec | src/main/java/qupath/lib/active_learning/SortedClusteringSampleProposal.java:89-92 | the sorted reset sorts the shared list and leaves the pointer and the current object alone |
| ClusterProposals.ClusteringNeverRecords | src/main/java/qupath/lib/active_learning/ClusteringSampleProposal.java:43-77 | the plain proposal never records what it serves, so a fruitless sweep returns the initial object |
| ClusterProposals.ClusteringServedFrom | src/main/java/qupath/lib/active_learning/ClusteringSampleProposal.java:43-77 | the pointer stays in range and a served object is the next of the first non-drained cluster in pointer order |
| ClusterProposals.AheadInRange | src/main/java/qupath/lib/active_learning/ClusteringSampleProposal.java:58-60 | stepping the pointer keeps it in range |
| ClusterProposals.EmptyClustersNeverServe | src/main/java/qupath/lib/active_learning/SortedClusteringSampleProposal.java:59-63 | with every cluster drained and only empty reclusterings, the retry never serves anything |
| ClusterProposals.SortedRetriesAfterReset | src/main/java/qupath/lib/active_learning/SortedClusteringSampleProposal.java:59-63 | a fruitless sweep resets and serves again |
| ClusterProposals.ClusteringProposal.constructor | src/main/java/qupath/lib/active_learning/ClusteringSampleProposal.java:23-30 | the state is the built proposal over the caller's list |
| ClusterProposals.ClusteringProposal.Initialize | src/main/java/qupath/lib/active_learning/ClusteringSampleProposal.java:32-40 | the state follows the plain `initialize` specification |
| ClusterProposals.ClusteringProposal.Reset | src/main/java/qupath/lib/active_learning/ClusteringSampleProposal.java:85-87 | reset is `initialize` |
| ClusterProposals.ClusteringProposal.ServeObject | src/main/java/qupath/lib/active_learning/ClusteringSampleProposal.java:43-77 | the result and the new state follow the plain serving specification |
| ClusterProposals.SortedClusteringProposal.constructor | src/main/java/qupath/lib/active_learning/SortedClusteringSampleProposal.java:25-32 | the state is the built sorted proposal |
| ClusterProposals.SortedClusteringProposal.Initialize | src/main/java/qupath/lib/active_learning/SortedClusteringSampleProposal.java:34-43 | the state follows the sorted `initialize` specification |
| ClusterProposals.SortedClusteringProposal.Reset | src/main/java/qupath/lib/active_learning/SortedClusteringSampleProposal.java:89-92 | the state follows the sorted reset specification |
| ClusterProposals.SortedClusteringProposal.ServeObject | src/main/java/qupath/lib/active_learning/SortedClusteringSampleProposal.java:46-71 | the result and the new state follow the sorted serving specification |
| Clusterers.ValuesOf | src/main/java/qupath/lib/active_learning/ClusterableObject.java:18-25 | one value per requested measurement, in request order, NaN where missing |
| Clusterers.FeatureVectorSpec | src/main/java/qupath/lib/active_learning/AbstractClusterer.java:39-63 | a feature vector holds the present features only, in name order: full length exactly when all are present, empty when none is |
| Clusterers.FeatureList | src/main/java/qupath/lib/active_learning/AbstractClusterer.java:48-52 | the feature loop builds that vector |
| Clusterers.ClusterableObject.FromNames | src/main/java/qupath/lib/active_learning/ClusterableObject.java:18-25 | the point holds one value per requested measurement |
| Clusterers.ClusterableObject.FromFeatures | src/main/java/qupath/lib/active_learning/ClusterableObject.java:27-30 | the point is a fresh copy of the caller's features |
| Clusterers.ClusterableObject.GetPathObject | src/main/java/qupath/lib/active_learning/ClusterableObject.java:32-34 | the wrapped object is returned |
| Clusterers.ClusterableObject.GetPoint | src/main/java/qupath/lib/active_learning/ClusterableObject.java:37-39 | the point array itself is returned, not a copy |
| Basics.KeyedByIndex | src/main/java/qupath/lib/active_learning/KMeansClusterer.java:41-50 | library cluster i is stored under key i and nothing else |
| Clusterers.ClusterLineNewlines | src/main/java/qupath/lib/active_learning/AbstractClusterer.java:81-93 | each report line ends in its only newline |
| Clusterers.ClusterLinesCount | src/main/java/qupath/lib/active_learning/AbstractClusterer.java:81-93 | the report has one line per key listed |
| Clusterers.ResultTextSpec | src/main/java/qupath/lib/active_learning/AbstractClusterer.java:81-93 | the report starts with the technique header, says "not completed" with no clusters, otherwise has exactly one line per cluster |
| Clusterers.Clusterer.Paired | src/main/java/qupath/lib/active_learning/AbstractClusterer.java:24-32 | one wrapper per object, object i with point i |
| Clusterers.Clusterer.Named | src/main/java/qupath/lib/active_learning/AbstractClusterer.java:39-63 | one wrapper per object, with the features it has |
| Clusterers.Clusterer.Cluster | src/main/java/qupath/lib/active_learning/KMeansClusterer.java:34-53 | the map is cleared and refilled from the library, the objects untouched |
| Clusterers.Clusterer.GetClusterMap | src/main/java/qupath/lib/active_learning/AbstractClusterer.java:74-76 | the current map is returned |
| Clusterers.Clusterer.ResultToString | src/main/java/qupath/lib/active_learning/AbstractClusterer.java:81-93 | the text is the report of the map under the algorithm's name |
| Confusion.Created | src/main/java/qupath/lib/classification/ConfusionMatrix.java:50-54 | a new matrix is square over the classes |
| Confusion.Register | src/main/java/qupath/lib/classification/ConfusionMatrix.java:62-70 | a registration keeps the matrix square |
| Confusion.RegisterSpec | src/main/java/qupath/lib/classification/ConfusionMatrix.java:62-70 | an unknown class adds one error and leaves the table; otherwise exactly cell [true][assigned] gains one |
| Confusion.RegisterCounts | src/main/java/qupath/lib/classification/ConfusionMatrix.java:62-70 | each registration adds one to the cells plus the errors |
| Confusion.RegisterAll | src/main/java/qupath/lib/classification/ConfusionMatrix.java:62-70 | registering a list keeps the matrix square over the same classes |
| Confusion.RegisterAllCounts | src/main/java/qupath/lib/classification/ConfusionMatrix.java:62-70 | from a new matrix the cells plus the errors count the registrations |
| Confusion.BinaryOutcomes | src/main/java/qupath/lib/classification/ConfusionMatrix.java:153-167 | with two classes the first is positive: each kind of pair increments only its own outcome |
| Confusion.Statistics | src/main/java/qupath/lib/classification/ConfusionMatrix.java:128-139 | statistics are refused exactly for a non-binary matrix; otherwise they report the four outcome cells |
| Confusion.ConfusionMatrix.constructor | src/main/java/qupath/lib/classification/ConfusionMatrix.java:50-54 | the matrix starts zeroed with no errors |
| Confusion.ConfusionMatrix.RegisterClassification | src/main/java/qupath/lib/classification/ConfusionMatrix.java:62-70 | the array matrix follows `Register` and stays square |
| Confusion.ConfusionMatrix.GetStatistics | src/main/java/qupath/lib/classification/ConfusionMatrix.java:128-139 | the report follows `Statistics` |
| Confusion.Tallied | src/main/java/qupath/lib/classification/ClassifierStatisticsHelper.java:57-59 | the tally table is n by n |
| Confusion.TalliedCounts | src/main/java/qupath/lib/classification/ClassifierStatisticsHelper.java:57-59 | cell [t][p] counts the positions with true label t and prediction p |
| Confusion.TalliedTotal | src/main/java/qupath/lib/classification/ClassifierStatisticsHelper.java:57-59 | all cells together count every position once |
| Confusion.ConfusionCountsThrows | src/main/java/qupath/lib/classification/ClassifierStatisticsHelper.java:53-61 | the helper throws exactly for a negative class count, a missing prediction or a label outside [0, n), the 8-bit pixels from 128 up reading negative |
| Confusion.HelperBinaryOutcomes | src/main/java/qupath/lib/classification/ClassifierStatisticsHelper.java:90-104 | the helper's outcomes take label 1 as positive, the opposite of `ConfusionMatrix`, and together count every position |
| Confusion.CalculateConfusionMatrix | src/main/java/qupath/lib/classification/ClassifierStatisticsHelper.java:53-61 | the counting loop's result or exception follows `ConfusionCounts` |
| Classifiers.FeatureRows | src/main/java/qupath/lib/classification/RandomForestClassifier.java:80-106 | one feature row per object, in list order |
| Classifiers.FeatureRowOf | src/main/java/qupath/lib/classification/RandomForestClassifier.java:89-95 | the inner loop builds one object's row |
| Classifiers.FeatureMatrix | src/main/java/qupath/lib/classification/RandomForestClassifier.java:80-106 | the outer loop builds the rows of all objects |
| Classifiers.FeatureRowSpec | src/main/java/qupath/lib/classification/ClassifierExampleCommand.java:129-135 | a value is in the row exactly when its name is listed; the row follows measurement order; a name listed twice adds nothing |
| Classifiers.FeatureRowOrder | src/main/java/qupath/lib/classification/ClassifierExampleCommand.java:129-135 | features listed as [b, a] over measurements a, b give the row [a, b] |
| Classifiers.ListedValuesOfTwo | src/main/java/qupath/lib/classification/ClassifierExampleCommand.java:129-135 | two listed measurements give their values in measurement-list order, whatever the order of the feature list |
| Classifiers.Group | src/main/java/qupath/lib/classification/ClassifierExampleCommand.java:195-202 | each object of a class's list is paired with that class's label |
| Classifiers.SampleRows | src/main/java/qupath/lib/classification/ClassifierExampleCommand.java:156-183 | one feature row per sample, in sample order |
| Classifiers.SamplesBelong | src/main/java/qupath/lib/classification/ClassifierExampleCommand.java:190-205 | each sample carries the index of a class whose list holds it |
| Classifiers.TrainingRowsAligned | src/main/java/qupath/lib/classification/ClassifierExampleCommand.java:190-205 | with the corrected order, row j and label j belong to the same sample |
| Classifiers.TrainingRowsMisaligned | src/main/java/qupath/lib/classification/ClassifierExampleCommand.java:118-147 | as written, a hash order that hands back B's list first pairs B's features with A's label |
| Classifiers.SamplesOfTwo | src/main/java/qupath/lib/classification/ClassifierExampleCommand.java:190-205 | two classes give the first's objects labelled 0, then the second's labelled 1 |
| Classifiers.CollectedMaps | src/main/java/qupath/lib/classification/ClassifierExampleCommand.java:79-91 | `run` maps each listed class to its objects and label k to the k-th class |
| Classifiers.SamplesLength | src/main/java/qupath/lib/classification/ClassifierExampleCommand.java:190-205 | one sample per object of each class's list |
| Classifiers.CollectedCount | src/main/java/qupath/lib/classification/ClassifierExampleCommand.java:79-91 | `nSamples` adds up the list sizes |
| Classifiers.CollectedSpec | src/main/java/qupath/lib/classification/ClassifierExampleCommand.java:61-110 | after `run` the label vector has exactly `nSamples` entries |
| Classifiers.Relabel | src/main/java/qupath/lib/classification/ClassifierExampleCommand.java:239-241 | the first n objects take their decoded prediction and the rest stay |
| Classifiers.PropagatedSpec | src/main/java/qupath/lib/classification/ClassifierExampleCommand.java:210-251 | only non-annotation, non-points objects are reclassified, in order, each to its label's class or null; too few predictions throw |
| Classifiers.ClassifierCommand.constructor | src/main/java/qupath/lib/classification/ClassifierExampleCommand.java:49-57 | the command is binary exactly for two classes |
| Classifiers.ClassifierCommand.CollectTraining | src/main/java/qupath/lib/classification/ClassifierExampleCommand.java:72-91 | the bookkeeping restarts from zero and follows `Collected` |
| Classifiers.ClassifierCommand.TrainingLabels | src/main/java/qupath/lib/classification/ClassifierExampleCommand.java:190-205 | the labels follow the class list |
| Classifiers.ClassifierCommand.TrainingFeatureMatrix | src/main/java/qupath/lib/classification/ClassifierExampleCommand.java:118-147 | the rows follow the hash map's value order, as written |
| Classifiers.ClassifierCommand.Propagate | src/main/java/qupath/lib/classification/ClassifierExampleCommand.java:210-251 | the filtered, relabelled objects and the exception follow `Propagated` |
| Classifiers.FirstMatch | src/main/java/qupath/lib/classification/RandomForestClassifier.java:152-158 | the index of the first class matched, every earlier one unmatched, or none |
| Classifiers.LabelColumnThrows | src/main/java/qupath/lib/classification/RandomForestClassifier.java:140-165 | the label column throws a null pointer exception exactly when classes exist and a training object is unclassified |
| Classifiers.LabelColumnLabels | src/main/java/qupath/lib/classification/RandomForestClassifier.java:152-158 | each classified object gets the index of the first class it matches, or no label |
| Classifiers.PredictedSpec | src/main/java/qupath/lib/classification/RandomForestClassifier.java:229-251 | one class per row, the class at the forest's label; a label outside the list throws |
| Classifiers.RandomForest.constructor | src/main/java/qupath/lib/classification/RandomForestClassifier.java:43-65 | the features and labels are computed from the training set and there are no probabilities yet |
| Classifiers.RandomForest.CreateLabelMatrix | src/main/java/qupath/lib/classification/RandomForestClassifier.java:140-165 | the loop with its `break` builds `LabelColumn` |
| Classifiers.RandomForest.AddTrainingSamples | src/main/java/qupath/lib/classification/RandomForestClassifier.java:172-176 | the training set grows and features and labels are rebuilt from all of it |
| Classifiers.RandomForest.AddTrainingSample | src/main/java/qupath/lib/classification/RandomForestClassifier.java:182-186 | one more sample, then the same rebuild |
| Classifiers.RandomForest.SetFeatureMatrix | src/main/java/qupath/lib/classification/RandomForestClassifier.java:128-132 | the rows are replaced and labels are recomputed only when asked |
| Classifiers.RandomForest.GetProbabilities | src/main/java/qupath/lib/classification/RandomForestClassifier.java:113-120 | probabilities are returned only for a binary problem |
| Classifiers.RandomForest.Predict | src/main/java/qupath/lib/classification/RandomForestClassifier.java:229-251 | the prediction follows `Predicted` and a probability matrix as tall as the rows is kept |
| Classifiers.RandomForest.PredictObjects | src/main/java/qupath/lib/classification/RandomForestClassifier.java:200-223 | predicting a list predicts its feature rows |
| Classifiers.RandomForest.PredictTraining | src/main/java/qupath/lib/classification/RandomForestClassifier.java:257-259 | predicting the training set predicts its feature rows |
| Overlap.PickSpec | src/main/java/qupath/lib/scripting/TunelDetectionHelper.java:114-137 | a pair keeps the first object only when they do not overlap and it is strictly larger; otherwise the second, NaN included |
| Overlap.DedupConcat | src/main/java/qupath/lib/scripting/TunelDetectionHelper.java:118-120 | adding two batches in turn is adding their concatenation |
| Overlap.DedupSpec | src/main/java/qupath/lib/scripting/TunelDetectionHelper.java:118-120 | add-if-absent only appends, keeps the list duplicate-free and holds exactly the old and added objects |
| Overlap.RowPicks | src/main/java/qupath/lib/scripting/TunelDetectionHelper.java:111-138 | one pick per object of the second channel |
| Overlap.PairPicksFrom | src/main/java/qupath/lib/scripting/TunelDetectionHelper.java:110-139 | a pair's pick is one of the pair |
| Overlap.PairPicksComplete | src/main/java/qupath/lib/scripting/TunelDetectionHelper.java:110-139 | every pair of the two lists contributes its pick |
| Overlap.ChannelPicksFrom | src/main/java/qupath/lib/scripting/TunelDetectionHelper.java:102-140 | a channel's picks come from the channels |
| Overlap.ChannelPicksComplete | src/main/java/qupath/lib/scripting/TunelDetectionHelper.java:102-140 | a channel contributes the pick of each of its objects against every other channel's |
| Overlap.ChannelPicksAlone | src/main/java/qupath/lib/scripting/TunelDetectionHelper.java:106-107 | a channel compared only with itself contributes nothing |
| Overlap.AllPicksFrom | src/main/java/qupath/lib/scripting/TunelDetectionHelper.java:100-141 | all picks come from the channels |
| Overlap.AllPicksHasChannel | src/main/java/qupath/lib/scripting/TunelDetectionHelper.java:100-141 | each channel's picks are among all picks |
| Overlap.AllPicksComplete | src/main/java/qupath/lib/scripting/TunelDetectionHelper.java:100-141 | every pair from two different channels contributes its pick |
| Overlap.DeduplicatedSpec | src/main/java/qupath/lib/scripting/TunelDetectionHelper.java:94-146 | the merged list has no duplicates, only channel objects, the pick of every cross-channel pair, and is empty for one channel |
| Overlap.AddRow | src/main/java/qupath/lib/scripting/TunelDetectionHelper.java:111-138 | the innermost loop adds one row's picks if absent |
| Overlap.AddPair | src/main/java/qupath/lib/scripting/TunelDetectionHelper.java:110-139 | the object loop adds one channel pair's picks if absent |
| Overlap.AddChannel | src/main/java/qupath/lib/scripting/TunelDetectionHelper.java:102-140 | the channel loop adds one channel's picks if absent, skipping itself |
| Overlap.TunelHelper.constructor | src/main/java/qupath/lib/scripting/TunelDetectionHelper.java:56-63 | the helper holds the given channel map and list |
| Overlap.TunelHelper.HandleOverlappingObjects | src/main/java/qupath/lib/scripting/TunelDetectionHelper.java:94-146 | the object list is replaced by the merged list and the map is unchanged |
| Converters.PixelRoundTrip | src/main/java/qupath/lib/ij_opencv/ImagePlusToMatConverter.java:184-192 | splitting a pixel and packing its bytes gives the pixel without its alpha byte |
| Converters.BytesRoundTrip | src/main/java/qupath/lib/ij_opencv/MatToImagePlusConverter.java:154-164 | packing three bytes and splitting them gives them back |
| Converters.Unpacked | src/main/java/qupath/lib/ij_opencv/ImagePlusToMatConverter.java:178 | the colour Mat data has three bytes per pixel |
| Converters.Packed | src/main/java/qupath/lib/ij_opencv/MatToImagePlusConverter.java:132-168 | packing yields one pixel per three bytes |
| Converters.UnpackedLayout | src/main/java/qupath/lib/ij_opencv/ImagePlusToMatConverter.java:184-192 | pixel i gives its red, green, blue bytes at 3i, 3i+1, 3i+2 |
| Converters.UnpackPackRoundTrip | src/main/java/qupath/lib/ij_opencv/ImagePlusToMatConverter.java:184-192 | unpacking then packing keeps each pixel's low 24 bits |
| Converters.PackUnpackRoundTrip | src/main/java/qupath/lib/ij_opencv/MatToImagePlusConverter.java:154-164 | packing then unpacking gives the bytes back |
| Converters.UnpackPixels | src/main/java/qupath/lib/ij_opencv/ImagePlusToMatConverter.java:184-192 | the colour loop fills a fresh array with the unpacked bytes |
| Converters.PackPixels | src/main/java/qupath/lib/ij_opencv/MatToImagePlusConverter.java:154-164 | the packing loop fills a fresh array with the packed pixels |
| Converters.ToMat | src/main/java/qupath/lib/ij_opencv/ImagePlusToMatConverter.java:22-50 | any other processor is refused with an illegal argument; otherwise the Mat is h rows by w columns |
| Converters.ToMatTypes | src/main/java/qupath/lib/ij_opencv/ImagePlusToMatConverter.java:68-198 | 8-bit, RGB, 16-bit and float processors give CV_8UC1, CV_8UC3 (R, G, B per pixel), CV_16UC1 and CV_32FC1, single-channel data unchanged |
| Converters.ToMatOf | src/main/java/qupath/lib/ij_opencv/ImagePlusToMatConverter.java:170-198 | the method with the colour loop computes `ToMat` |
| Converters.MakeByteProcessor | src/main/java/qupath/lib/ij_opencv/MatToImagePlusConverter.java:61-79 | any type but CV_8UC1 is refused; the processor is cols wide and rows high |
| Converters.MakeShortProcessor | src/main/java/qupath/lib/ij_opencv/MatToImagePlusConverter.java:83-106 | any type but CV_16UC1 is refused |
| Converters.MakeFloatProcessor | src/main/java/qupath/lib/ij_opencv/MatToImagePlusConverter.java:110-128 | any type but CV_32FC1 is refused |
| Converters.MakeColorProcessor | src/main/java/qupath/lib/ij_opencv/MatToImagePlusConverter.java:132-168 | any type but CV_8UC3 is refused |
| Converters.ToImageProcessor | src/main/java/qupath/lib/ij_opencv/MatToImagePlusConverter.java:23-55 | unknown types are refused; the processor has the Mat's shape |
| Converters.MakeColorProcessorOf | src/main/java/qupath/lib/ij_opencv/MatToImagePlusConverter.java:132-168 | the method with its loop computes `MakeColorProcessor` |
| Converters.AlphaDropped | src/main/java/qupath/lib/ij_opencv/MatToImagePlusConverter.java:154-164 | a round trip keeps the processor's shape |
| Converters.ProcessorRoundTrip | src/main/java/qupath/lib/ij_opencv/ImagePlusToMatConverter.java:22-50 | processor to Mat and back gives the processor back, minus the alpha byte |
| Converters.MatRoundTrip | src/main/java/qupath/lib/ij_opencv/MatToImagePlusConverter.java:23-55 | Mat to processor and back gives the same Mat |
| Detection.DetectionChannel | src/main/java/qupath/lib/algorithms/WatershedDetectionFRS.java:135-140 | channel 0 or any channel above the last falls back to 1; an existing channel is kept |
| Detection.DetectionChannelRange | src/main/java/qupath/lib/scripting/ThresholderOpenCV.java:139-144 | a non-negative request ends on an existing channel; a negative one is passed on |
| Detection.ThresholderMethodSpec | src/main/java/qupath/lib/scripting/ThresholderOpenCV.java:230-280 | each method is selected by its own name; an unknown name selects Default |
| Detection.AdaptiveMethod | src/main/java/qupath/lib/scripting/ThresholderOpenCV.java:130 | Gaussian-C exactly for the choice "Gaussian", Mean-C otherwise |
| Detection.ResultsDescriptionSpec | src/main/java/qupath/lib/algorithms/WatershedDetectionFRS.java:346-360 | the description starts with the count, which reads back as the number of detections; "nucleus" only for one |
| Detection.ResultsDescriptionInjective | src/main/java/qupath/lib/scripting/ThresholderOpenCV.java:387-401 | different counts give different descriptions |
| Detection.RoutedUpTo | src/main/java/qupath/lib/algorithms/WatershedDetectionFRS.java:461-477 | the statistics list keeps its length |
| Detection.RoutedUpToSpec | src/main/java/qupath/lib/algorithms/WatershedDetectionFRS.java:465-476 | the loop throws exactly at an unroutable pixel; otherwise label k's statistics gain its pixels' intensities in pixel order |
| Detection.RoutedStays | src/main/java/qupath/lib/algorithms/WatershedDetectionFRS.java:465-476 | after the loop throws, later pixels change nothing |
| Detection.RoutedSpec | src/main/java/qupath/lib/algorithms/WatershedDetectionFRS.java:461-477 | the whole loop's result, as in `RoutedUpToSpec` |
| Detection.ComputeRunningStatistics | src/main/java/qupath/lib/algorithms/WatershedDetectionFRS.java:461-477 | the statistics array and the exception follow `Routed` |
| Detection.MaskedStays | src/main/java/qupath/lib/algorithms/WatershedDetectionFRS.java:447-459 | after the mask loop throws, later pixels change nothing |
| Detection.ComputeMaskedStatistics | src/main/java/qupath/lib/algorithms/WatershedDetectionFRS.java:447-459 | the statistics and the exception follow the as-written mask loop |
| Detection.MaskedWholeImage | src/main/java/qupath/lib/algorithms/WatershedDetectionFRS.java:447-459 | with the intended row, a whole-image box reads exactly the set mask pixels, in order |
| Detection.MaskedAsWrittenMisreads | src/main/java/qupath/lib/algorithms/WatershedDetectionFRS.java:453-456 | as written, a 2×2 box over a 2×2 image reads pixels 0, 3, 0, 3 |
| Detection.MaskedIntendedReadsAll | src/main/java/qupath/lib/algorithms/WatershedDetectionFRS.java:453-456 | with the intended row it reads pixels 0, 1, 2, 3 |
| SaveDetections.Extension | src/main/java/qupath/lib/save_detections/SaveDetectionImagesCommand.java:275-282 | PNG gives ".png" and JPEG gives ".jpg", each exactly |
| SaveDetections.AncestorNames | src/main/java/qupath/lib/save_detections/SaveDetectionImagesCommand.java:368-376 | the name list ends with the class's own name |
| SaveDetections.FolderNameSpec | src/main/java/qupath/lib/save_detections/SaveDetectionImagesCommand.java:368-376 | a base class's folder is its name; a derived class's is its parent's folder, "_" and its name |
| SaveDetections.FolderNamesCollide | src/main/java/qupath/lib/save_detections/SaveDetectionImagesCommand.java:368-376 | "A_B" and "B" under "A" share a folder |
| SaveDetections.ClassFolderName | src/main/java/qupath/lib/save_detections/SaveDetectionImagesCommand.java:368-376 | the climbing loop builds `FolderName` |
| SaveDetections.Kept | src/main/java/qupath/lib/save_detections/SaveDetectionImagesCommand.java:364-365 | no kept object is skipped |
| SaveDetections.KeptSpec | src/main/java/qupath/lib/save_detections/SaveDetectionImagesCommand.java:364-365 | an object is saved exactly when it is in the list and not null, an annotation, unclassified or "Image" |
| SaveDetections.KeptClasses | src/main/java/qupath/lib/save_detections/SaveDetectionImagesCommand.java:380-386 | one class per saved object |
| SaveDetections.ClassCountsSpec | src/main/java/qupath/lib/save_detections/SaveDetectionImagesCommand.java:380-386 | the class map holds exactly the saved classes, each with its object count |
| SaveDetections.Destinations | src/main/java/qupath/lib/save_detections/SaveDetectionImagesCommand.java:361-397 | one destination per saved object, in list order, in a class sub-folder exactly when saving by class |
| SaveDetections.DestinationsShareFolders | src/main/java/qupath/lib/save_detections/SaveDetectionImagesCommand.java:368-389 | objects of one class go to one sub-folder |
| SaveDetections.DebugCropFailure | src/main/java/qupath/lib/save_detections/SaveDetectionImagesCommand.java:325-332 | the debug crop succeeds exactly when there are over ten objects and the first and eleventh are not null |
| SaveDetections.ReportSkips | src/main/java/qupath/lib/save_detections/SaveDetectionImagesCommand.java:364-365 | a skipped object changes nothing |
| SaveDetections.ReportAdds | src/main/java/qupath/lib/save_detections/SaveDetectionImagesCommand.java:367-396 | a saved object adds one to the counter, one to its class's count, and one destination |
| SaveDetections.SaveOutcomeSpec | src/main/java/qupath/lib/save_detections/SaveDetectionImagesCommand.java:309-410 | the counter is the number of saved objects, each with a destination in list order; by class, the map counts each class |
| SaveDetections.FewObjectsThrow | src/main/java/qupath/lib/save_detections/SaveDetectionImagesCommand.java:325-332 | ten objects or fewer throw before anything is written |
| SaveDetections.ClickSpec | src/main/java/qupath/lib/save_detections/SaveDetectionImagesCommand.java:249-306 | the click stops for no selection or a non-annotation, and saves only with an image, objects and a folder |
| SaveDetections.SaveDetectionImagesPanel.constructor | src/main/java/qupath/lib/save_detections/SaveDetectionImagesCommand.java:145-165 | the settings start cleared |
| SaveDetections.SaveDetectionImagesPanel.SaveObjects | src/main/java/qupath/lib/save_detections/SaveDetectionImagesCommand.java:309-410 | the outcome follows `SaveOutcome` and only the two settings change |
| SaveDetections.SaveDetectionImagesPanel.ClickSaveButton | src/main/java/qupath/lib/save_detections/SaveDetectionImagesCommand.java:249-306 | the result follows `Click`; the current-annotation setting is always read first; the extension and objects change only once the selection guards pass |

## Left out

- **Objects are values.** Reclassifying a path object (`setPathClass`) changes the one Java object that every list
  holding it shares. In the model a relabelled object is a new value, so lists taken earlier keep the old class.
- **External libraries are parameters.** The clustering libraries (Apache Commons Math k-means++ and DBSCAN) and the PCA/feature extraction before them are a function parameter.
- **The forest is a parameter.** The forest's training and its prediction are a function from a row to a label.
- **The random generator is a parameter.** It is a sequence of draws.
- **No numerical properties of clustering or learning are stated.**
- **User interface.** JavaFX controls, the viewer, selection, logging and repainting are not part of this model.
- **Hierarchy events.** Each event the panels fire is recorded with whether the panel's own listener was attached,
  and the listener's response, the server rebuild, is modelled. Other listeners and the events' payloads are not.
- **The hierarchy's object list.** How QuPath places a new annotation in the hierarchy, and so the flattened list
  after it, is outside the model: the first panel's commit takes that list as a parameter, and the second panel
  rebuilds from the objects it holds, since its training annotations and their points are never reviewable.
- **Image I/O.** Reading pixels from the image server, `imwrite`, the JPEG scaling and conversion of `saveFile`, and
  the debug crop's image reads are not modelled. Only whether the debug crop throws is modelled.
- **Detection pipelines.** The radial-symmetry transform, the watershed, the OpenCV thresholding and the detection
  runs of `TunelDetectionHelper` and its plugins are not part of this model.
- **Floating point.** Doubles are reals or NaN. Rounding, infinities and the percentage formatting of the result
  description are not modelled; the formatted percentage is a parameter.
- **Integer overflow.** Java `int` overflow is not modelled: pixel counts such as `w * h * 3`, index arithmetic such as
  `y * width`, and counters are unbounded.
- **Classes given at the boundary.** A null list from `getChildObjects` and the class-cast of the selected object are
  not modelled. The Mat and processor shapes are assumed at the boundary.
- **Probability Mat.** The probability Mat of the forest is modelled by its row count only. Folding the probabilities
  into the objects' class probability is not modelled.
- **Float labels.** Labels read from float Mats are assumed integral.
- `ClusterProposals.SortedClusteringProposal.ServeObject`: recursing after a reset may not terminate, so the model
  takes a fuel bound. Running out of fuel is reported as `OutOfFuel`, and what the code would do after more retries
  is not modelled.
- `Proposals.SortedProposal.constructor`: requires a non-empty list, because the code's `get(0)` on an empty list
  throws out of a constructor, and the model does not represent a constructor that throws.
- `Classifiers.RandomForest.constructor`: requires a label column that can be built, for the same reason.
- `Clusterers.Clusterer.Paired`: requires at least as many points as objects, where the code would throw an
  index-out-of-bounds exception from its constructor.
- `ALSession2.Panel.ClickConfirmClass`: models the click as written. The corrected behaviour is `ALSession2.Confirmed`
  (see Findings).
- `Classifiers.ClassifierCommand.TrainingFeatureMatrix`: models the hash-order rows as written. The corrected rows
  are `Classifiers.TrainingRows` (see Findings).
- `Detection.ComputeMaskedStatistics`: models the row index as written. The corrected loop is
  `Detection.Masked(…, false)` (see Findings).
- `ALServer2.Clustered`, `ALServer2.Server.ClusterPathObjects`, `ALSession2.Rebuilt` and
  `ALSession2.Panel.HierarchyChanged`: the k-means++ library is total and deterministic here. The real one throws when
  there are fewer objects than clusters (the slider allows up to 5) and seeds itself at random.
- `ALServer1.Clustered1`, `ALServer1.Rebuilt`, `ALServer1.Panel1.constructor`, `ALServer1.Panel1.Open`,
  `ALServer1.Panel1.HierarchyChanged` and `ALServer1.Panel1.AddToTraining`: the same for k-means++ with three
  clusters, so a hierarchy with two reviewable objects, which throws in the code, gets a server here.
- `ClusterProposals.BuiltClusters`, `ClusterProposals.SortedRetriesAfterReset` and
  `ClusterProposals.SortedClusteringProposal.ServeObject`: reclustering is deterministic here, so a reset reproduces
  the same clusters; the real k-means++ with five clusters may cluster differently, or throw below five objects.
- `Clusterers.Clusterer.Paired`, `Clusterers.Clusterer.Named` and `Clusterers.Clusterer.Cluster`: the DBSCAN
  constructor's refusal of a negative eps or minPts, and k-means++ throwing with fewer points than clusters, are not
  modelled; the library always returns clusters.
- `Destinations`: each file is named after the clock's milliseconds, so two objects saved within one millisecond
  overwrite one file. The model gives one destination per object and does not model file names.

## Findings

| source | as written | input that shows it | evidently intended | confidence | as-written member | corrected member |
|---|---|---|---|---|---|---|
| src/main/java/qupath/lib/active_learning/ActiveLearningPanel2.java:232-243 | "Confirm" serves the next object and then commits `currentObject`, which now holds the newly served object | a session showing object 1 at (0, 0) whose server serves object 2 at (5, 5) next, with "add to training" set | commit the confirmed object, as "Change class" does | not executed | ALSession2.ConfirmScenarioDiffers | ALSession2.ConfirmCommitsConfirmed |
| src/main/java/qupath/lib/algorithms/WatershedDetectionFRS.java:453-456 | the pixel row is `i % width + y`, the column again | a 2×2 image with intensities 1 to 4, a full mask and bounds (0, 0, 2, 2): pixels 0, 3, 0, 3 are read | the row `i / width + y`, reading pixels 0, 1, 2, 3 | not executed | Detection.MaskedAsWrittenMisreads | Detection.MaskedWholeImage |
| src/main/java/qupath/lib/classification/ClassifierExampleCommand.java:118-147 | feature rows follow `trainingMap.values()`, in hash order, while labels follow `classList` | classes [A, B] with one object each, and a hash order that gives B's list first: row 0 is B's object while label 0 is A | rows in `classList` order, aligned with the labels | not executed | Classifiers.TrainingRowsMisaligned | Classifiers.TrainingRowsAligned |
