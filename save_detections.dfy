/**
  `SaveDetectionImagesCommand`: the panel that writes one image per detection,
  optionally into one sub-folder per classification.

  The image reads, the crops and the writes are left out. What is modelled is
  which objects are saved and where to: the guards of the save button, the
  extension, the objects the loop skips, the sub-folder name of a class and the
  counters the loop keeps.
 */
module SaveDetections {
  import opened Basics
  import opened Domain

  /** The two file formats the panel offers. */
  datatype FileFormat = JPEG | PNG

  /** The file extension chosen for a format. */
  function Extension(format: FileFormat): (r: string)
    ensures r == ".png" <==> format == PNG
    ensures r == ".jpg" <==> format == JPEG
  {
    match format
    case PNG => ".png"
    case JPEG => ".jpg"
  }

  /**
    The objects the save loop passes over: a null entry, an annotation, an
    unclassified object and an object of the base class "Image".
   */
  predicate Skipped(p: Option<PathObject>) {
    p.None? || p.value.kind == Annotation || p.value.pathClass.None? || p.value.pathClass.value == ImageClass
  }

  // ---------------------------------------------------------------------------
  // The sub-folder of a class
  // ---------------------------------------------------------------------------

  /** The names on a class's parent chain, from the root down to the class itself. */
  function AncestorNames(c: PathClass): (r: seq<string>)
    ensures |r| >= 1 && r[|r| - 1] == c.name
    decreases c
  {
    if c.parent.Some? then AncestorNames(c.parent.value) + [c.name] else [c.name]
  }

  /** The names joined, with `sep` between two neighbours. */
  function Joined(names: seq<string>, sep: string): string
    requires names != []
  {
    if |names| == 1 then names[0] else names[0] + sep + Joined(names[1..], sep)
  }

  /** Appending a name appends the separator and that name. */
  lemma {:induction false} JoinedSnoc(names: seq<string>, x: string, sep: string)
    requires names != []
    ensures Joined(names + [x], sep) == Joined(names, sep) + sep + x
    decreases |names|
  {
    if |names| == 1 {
      assert (names + [x])[1..] == [x];
    } else {
      assert (names + [x])[1..] == names[1..] + [x];
      JoinedSnoc(names[1..], x, sep);
    }
  }

  /** The name of the sub-folder a class's objects are saved in. */
  function FolderName(c: PathClass): string {
    Joined(AncestorNames(c), "_")
  }

  /**
    A base class's folder is named after the class; a derived class's folder
    is its parent's folder name, "_" and its own name.
   */
  lemma FolderNameSpec(c: PathClass)
    ensures c.parent.None? ==> FolderName(c) == c.name
    ensures c.parent.Some? ==> FolderName(c) == FolderName(c.parent.value) + "_" + c.name
  {
    if c.parent.Some? {
      JoinedSnoc(AncestorNames(c.parent.value), c.name, "_");
    }
  }

  /**
    A base class whose name holds "_" shares its folder with a derived class:
    "A_B" and "B" under "A" are both saved under "A_B".
   */
  lemma FolderNamesCollide()
    ensures FolderName(PathClass("A_B", None)) == FolderName(PathClass("B", Some(PathClass("A", None))))
  {
    FolderNameSpec(PathClass("B", Some(PathClass("A", None))));
  }

  /**
    The folder-name loop: starting from the class's own name, put each
    parent's name and "_" in front while climbing to the root.
   */
  method ClassFolderName(c: PathClass) returns (className: string)
    ensures className == FolderName(c)
  {
    var pc := c;
    className := pc.name;
    ghost var below: seq<string> := [];
    while pc.parent.Some?
      invariant AncestorNames(c) == AncestorNames(pc) + below
      invariant className == Joined([pc.name] + below, "_")
      decreases pc
    {
      var parent := pc.parent.value;
      ClimbStep(pc, below);
      className := parent.name + "_" + className;
      below := [pc.name] + below;
      pc := parent;
    }
    assert AncestorNames(pc) == [pc.name];
  }

  /** One step of the climb: the parent's name moves from the chain to the front of the joined names. */
  lemma ClimbStep(pc: PathClass, below: seq<string>)
    requires pc.parent.Some?
    ensures AncestorNames(pc) + below == AncestorNames(pc.parent.value) + ([pc.name] + below)
    ensures Joined([pc.parent.value.name] + ([pc.name] + below), "_")
         == pc.parent.value.name + "_" + Joined([pc.name] + below, "_")
  {
    var rest := [pc.name] + below;
    assert ([pc.parent.value.name] + rest)[1..] == rest;
  }

  // ---------------------------------------------------------------------------
  // What the save loop does
  // ---------------------------------------------------------------------------

  /** The objects the loop saves, in list order. */
  function Kept(objs: seq<Option<PathObject>>): (r: seq<PathObject>)
    ensures |r| <= |objs|
    ensures forall p :: p in r ==> !Skipped(Some(p))
    decreases |objs|
  {
    if objs == [] then []
    else
      var last := objs[|objs| - 1];
      Kept(objs[..|objs| - 1]) + (if Skipped(last) then [] else [last.value])
  }

  /** An object is saved exactly when it is in the list and not skipped. */
  lemma {:induction false} KeptSpec(objs: seq<Option<PathObject>>)
    ensures forall p :: p in Kept(objs) <==> Some(p) in objs && !Skipped(Some(p))
    decreases |objs|
  {
    if objs != [] {
      var init := objs[..|objs| - 1];
      KeptSpec(init);
      assert objs == init + [objs[|objs| - 1]];
    }
  }

  /** The classes of the saved objects, one per object. */
  function KeptClasses(kept: seq<PathObject>): (r: seq<PathClass>)
    requires forall p :: p in kept ==> p.pathClass.Some?
    ensures |r| == |kept|
  {
    seq(|kept|, k requires 0 <= k < |kept| => kept[k].pathClass.value)
  }

  /**
    The class map: a class's first saved object puts it in the map with 1, each
    later one adds 1.
   */
  function ClassCounts(classes: seq<PathClass>): map<PathClass, nat>
    decreases |classes|
  {
    if classes == [] then map[]
    else
      var m := ClassCounts(classes[..|classes| - 1]);
      var c := classes[|classes| - 1];
      m[c := if c in m then m[c] + 1 else 1]
  }

  /** The class map holds exactly the classes seen, each with its number of objects. */
  lemma {:induction false} ClassCountsSpec(classes: seq<PathClass>)
    ensures forall c :: c in ClassCounts(classes) <==> c in classes
    ensures forall c :: c in ClassCounts(classes) ==> ClassCounts(classes)[c] == Count(classes, c)
    decreases |classes|
  {
    if classes != [] {
      var init := classes[..|classes| - 1];
      ClassCountsSpec(init);
      assert classes == init + [classes[|classes| - 1]];
    }
  }

  /** A saved object and the class sub-folder it goes to (none: the chosen folder itself). */
  datatype Destination = Destination(obj: PathObject, subFolder: Option<string>)

  /**
    Where the kept objects go: one destination per object, in order, in a class
    sub-folder exactly when saving by class.
   */
  function Destinations(kept: seq<PathObject>, saveByClass: bool): (r: seq<Destination>)
    requires forall p :: p in kept ==> p.pathClass.Some?
    ensures |r| == |kept|
    ensures forall k :: 0 <= k < |kept| ==> r[k].obj == kept[k] && (r[k].subFolder.Some? <==> saveByClass)
  {
    seq(|kept|, k requires 0 <= k < |kept| =>
      Destination(kept[k], if saveByClass then Some(FolderName(kept[k].pathClass.value)) else None))
  }

  /** Objects of one class go to one sub-folder. */
  lemma DestinationsShareFolders(kept: seq<PathObject>, saveByClass: bool, j: nat, k: nat)
    requires forall p :: p in kept ==> p.pathClass.Some?
    requires j < |kept| && k < |kept| && kept[j].pathClass == kept[k].pathClass
    ensures Destinations(kept, saveByClass)[j].subFolder == Destinations(kept, saveByClass)[k].subFolder
  {
  }

  /** What `saveObjects` ends with: the total counter, the class map and the destinations. */
  datatype SaveReport = SaveReport(counter: nat, classMap: map<PathClass, nat>, saved: seq<Destination>)

  /**
    The debugging crop before the loop reads the ROIs of the first and the
    eleventh object.
   */
  function DebugCropFailure(objs: seq<Option<PathObject>>): (r: Option<JavaException>)
    ensures r == None <==> |objs| > 10 && objs[0].Some? && objs[10].Some?
  {
    if |objs| == 0 then Some(IndexOutOfBounds)
    else if objs[0].None? then Some(NullPointer)
    else if |objs| <= 10 then Some(IndexOutOfBounds)
    else if objs[10].None? then Some(NullPointer)
    else None
  }

  /** The report after the loop has seen the first `n` objects. */
  function ReportUpTo(objs: seq<Option<PathObject>>, saveByClass: bool, n: nat): SaveReport
    requires n <= |objs|
  {
    var kept := Kept(objs[..n]);
    SaveReport(|kept|, if saveByClass then ClassCounts(KeptClasses(kept)) else map[], Destinations(kept, saveByClass))
  }

  /** A skipped object leaves the report as it was. */
  lemma ReportSkips(objs: seq<Option<PathObject>>, saveByClass: bool, i: nat)
    requires i < |objs| && Skipped(objs[i])
    ensures ReportUpTo(objs, saveByClass, i + 1) == ReportUpTo(objs, saveByClass, i)
  {
    assert objs[..i + 1][..i] == objs[..i];
    assert Kept(objs[..i + 1]) == Kept(objs[..i]) + [];
    assert Kept(objs[..i]) + [] == Kept(objs[..i]);
  }

  /**
    A saved object adds one to the counter, one to its class's entry (starting
    it at 1) when saving by class, and one destination.
   */
  lemma ReportAdds(objs: seq<Option<PathObject>>, saveByClass: bool, i: nat)
    requires i < |objs| && !Skipped(objs[i])
    ensures var before := ReportUpTo(objs, saveByClass, i);
      var p := objs[i].value;
      var c := p.pathClass.value;
      ReportUpTo(objs, saveByClass, i + 1) ==
        SaveReport(before.counter + 1,
                   if saveByClass then before.classMap[c := if c in before.classMap then before.classMap[c] + 1 else 1]
                   else map[],
                   before.saved + [Destination(p, if saveByClass then Some(FolderName(c)) else None)])
  {
    var p := objs[i].value;
    var kept := Kept(objs[..i]);
    assert objs[..i + 1][..i] == objs[..i];
    assert Kept(objs[..i + 1]) == kept + [p];
    var classes := KeptClasses(kept + [p]);
    assert classes[..|kept|] == KeptClasses(kept);
    assert Destinations(kept + [p], saveByClass) ==
      Destinations(kept, saveByClass) + [Destination(p, if saveByClass then Some(FolderName(p.pathClass.value)) else None)];
  }

  /** `saveObjects`: the debugging crop, then the loop over every object. */
  function SaveOutcome(objs: seq<Option<PathObject>>, saveByClass: bool): Outcome<SaveReport> {
    match DebugCropFailure(objs)
    case Some(e) => Thrown(e)
    case None => Returned(ReportUpTo(objs, saveByClass, |objs|))
  }

  /**
    After a save: the total counter is the number of objects not skipped, and
    each of them has a destination in list order; by class, the class map holds each
    saved class with its number of objects; otherwise the map stays empty.
   */
  lemma SaveOutcomeSpec(objs: seq<Option<PathObject>>, saveByClass: bool)
    requires SaveOutcome(objs, saveByClass).Returned?
    ensures var rep := SaveOutcome(objs, saveByClass).value;
      && rep.counter == |rep.saved| == |Kept(objs)|
      && (forall k :: 0 <= k < |rep.saved| ==> rep.saved[k].obj == Kept(objs)[k])
      && (forall p :: p in Kept(objs) <==> Some(p) in objs && !Skipped(Some(p)))
      && (!saveByClass ==> rep.classMap == map[])
      && (saveByClass ==> forall c :: c in rep.classMap <==> c in KeptClasses(Kept(objs)))
      && (saveByClass ==> forall c :: c in rep.classMap ==> rep.classMap[c] == Count(KeptClasses(Kept(objs)), c))
  {
    assert objs[..|objs|] == objs;
    KeptSpec(objs);
    ClassCountsSpec(KeptClasses(Kept(objs)));
  }

  /** The save throws before writing anything when the list has ten objects or fewer. */
  lemma FewObjectsThrow(objs: seq<Option<PathObject>>, saveByClass: bool)
    requires |objs| <= 10
    ensures SaveOutcome(objs, saveByClass).Thrown?
  {
  }

  /** Why the save button stopped before saving. */
  datatype Abort = NoImageData | NothingSelected | NotAnAnnotation | NoObjects | NoFolder

  /** What a click on the save button came to. */
  datatype ClickResult = Aborted(reason: Abort) | Ran(outcome: Outcome<SaveReport>)

  /** The objects a click saves: the selection's children, or the whole hierarchy. */
  function ClickObjects(currentOnly: bool, children: seq<Option<PathObject>>, flattened: seq<Option<PathObject>>)
    : seq<Option<PathObject>>
  {
    if currentOnly then children else flattened
  }

  /**
    `clickSaveButton`: `imageOpen` says whether an image is open, `selected` is
    the selected object, `children` its child objects, `flattened` the whole
    hierarchy, and `folder` the folder the user picked, if any.
   */
  function Click(imageOpen: bool, currentOnly: bool, selected: Option<PathObject>,
                 children: seq<Option<PathObject>>, flattened: seq<Option<PathObject>>,
                 folder: Option<string>, saveByClass: bool): ClickResult
  {
    if !imageOpen then Aborted(NoImageData)
    else if currentOnly && selected.None? then Aborted(NothingSelected)
    else if currentOnly && selected.value.kind != Annotation then Aborted(NotAnAnnotation)
    else if |ClickObjects(currentOnly, children, flattened)| == 0 then Aborted(NoObjects)
    else if folder.None? then Aborted(NoFolder)
    else Ran(SaveOutcome(ClickObjects(currentOnly, children, flattened), saveByClass))
  }

  /**
    "Current annotation only" stops the click when nothing is selected or the
    selection is not an annotation; the click saves only when an image is open,
    that check passes, the object list is not empty and a folder was picked, and
    it then saves the selection's children or the whole hierarchy.
   */
  lemma ClickSpec(imageOpen: bool, currentOnly: bool, selected: Option<PathObject>,
                  children: seq<Option<PathObject>>, flattened: seq<Option<PathObject>>,
                  folder: Option<string>, saveByClass: bool)
    ensures var r := Click(imageOpen, currentOnly, selected, children, flattened, folder, saveByClass);
      && (r == Aborted(NothingSelected) <==> imageOpen && currentOnly && selected.None?)
      && (r == Aborted(NotAnAnnotation) <==> imageOpen && currentOnly && selected.Some? && selected.value.kind != Annotation)
      && (r.Ran? <==>
            imageOpen && (currentOnly ==> selected.Some? && selected.value.kind == Annotation) &&
            |ClickObjects(currentOnly, children, flattened)| > 0 && folder.Some?)
      && (r.Ran? ==> r.outcome == SaveOutcome(if currentOnly then children else flattened, saveByClass))
  {
  }

  /** The panel's settings and object list, which a click overwrites. */
  class SaveDetectionImagesPanel {
    var extension: Option<string>
    var currentAnnotationOnly: bool
    var saveByClass: bool
    var cropROI: bool
    var pathObjects: seq<Option<PathObject>>

    constructor ()
      ensures extension == None && pathObjects == []
      ensures !currentAnnotationOnly && !saveByClass && !cropROI
    {
      extension := None;
      currentAnnotationOnly := false;
      saveByClass := false;
      cropROI := false;
      pathObjects := [];
    }

    /** `saveObjects`, up to the destinations it would write to. */
    method SaveObjects(objs: seq<Option<PathObject>>, saveByClassParam: bool, cropROIParam: bool)
      returns (outcome: Outcome<SaveReport>)
      modifies this
      ensures outcome == SaveOutcome(objs, saveByClassParam)
      ensures saveByClass == saveByClassParam && cropROI == cropROIParam
      ensures extension == old(extension) && currentAnnotationOnly == old(currentAnnotationOnly)
      ensures pathObjects == old(pathObjects)
    {
      saveByClass := saveByClassParam;
      cropROI := cropROIParam;
      var failure := DebugCropFailure(objs);
      if failure.Some? {
        return Thrown(failure.value);
      }
      var classMap: map<PathClass, nat> := map[];
      var counter: nat := 0;
      var saved: seq<Destination> := [];
      for i := 0 to |objs|
        invariant SaveReport(counter, classMap, saved) == ReportUpTo(objs, saveByClass, i)
        invariant saveByClass == saveByClassParam && cropROI == cropROIParam
        invariant extension == old(extension) && currentAnnotationOnly == old(currentAnnotationOnly)
        invariant pathObjects == old(pathObjects)
      {
        var p := objs[i];
        if Skipped(p) {
          ReportSkips(objs, saveByClass, i);
          continue;
        }
        ReportAdds(objs, saveByClass, i);
        if saveByClass {
          var pc := p.value.pathClass.value;
          var className := ClassFolderName(pc);
          if pc !in classMap {
            classMap := classMap[pc := 1];
          } else {
            classMap := classMap[pc := classMap[pc] + 1];
          }
          saved := saved + [Destination(p.value, Some(className))];
        } else {
          saved := saved + [Destination(p.value, None)];
        }
        counter := counter + 1;
      }
      assert objs[..|objs|] == objs;
      outcome := Returned(SaveReport(counter, classMap, saved));
    }

    /** `clickSaveButton`: the guards, the extension, the object list, then the save. */
    method ClickSaveButton(imageOpen: bool, currentParam: bool, selected: Option<PathObject>,
                           children: seq<Option<PathObject>>, flattened: seq<Option<PathObject>>,
                           format: FileFormat, folder: Option<string>, saveByClassParam: bool, cropROIParam: bool)
      returns (r: ClickResult)
      modifies this
      ensures r == Click(imageOpen, currentParam, selected, children, flattened, folder, saveByClassParam)
      ensures currentAnnotationOnly == currentParam
      ensures r.Aborted? && r.reason in {NoImageData, NothingSelected, NotAnAnnotation} ==>
        extension == old(extension) && pathObjects == old(pathObjects)
      ensures r.Ran? || (r.Aborted? && r.reason in {NoObjects, NoFolder}) ==>
        extension == Some(Extension(format)) && pathObjects == ClickObjects(currentParam, children, flattened)
      ensures r.Ran? ==> saveByClass == saveByClassParam && cropROI == cropROIParam
    {
      currentAnnotationOnly := currentParam;
      if !imageOpen {
        return Aborted(NoImageData);
      }
      if currentAnnotationOnly {
        if selected.None? {
          return Aborted(NothingSelected);
        }
        if selected.value.kind != Annotation {
          return Aborted(NotAnAnnotation);
        }
      }
      extension := Some(Extension(format));
      if currentAnnotationOnly {
        pathObjects := children;
      } else {
        pathObjects := flattened;
      }
      if |pathObjects| == 0 {
        return Aborted(NoObjects);
      }
      if folder.None? {
        return Aborted(NoFolder);
      }
      var outcome := SaveObjects(pathObjects, saveByClassParam, cropROIParam);
      r := Ran(outcome);
    }
  }
}
