/** Fault isolation for all the errors of a document at once, and a document in which it fails. */
module XmlIsolation {
  import opened Json
  import opened Xml
  import opened XmlParser
  import opened XmlRefinement
  import opened XmlFaults
  import opened XmlDamage
  import opened XmlResync

  // ---- The same damage among other records ----

  /** The same document with other complete nodes where its stretches end. */
  function WithMores(parts: seq<Part>, mores: seq<seq<Node>>): seq<Part>
    requires |mores| == |parts|
  {
    seq(|parts|, i requires 0 <= i < |parts| => parts[i].(rest := Rest(parts[i].rest.below, mores[i])))
  }

  lemma WithMoresCons(parts: seq<Part>, mores: seq<seq<Node>>)
    requires |mores| == |parts| && parts != []
    ensures WithMores(parts, mores)[0] == parts[0].(rest := Rest(parts[0].rest.below, mores[0]))
    ensures WithMores(parts, mores)[1..] == WithMores(parts[1..], mores[1..])
  {
  }

  lemma {:induction false} SamePositions(parts: seq<Part>, mores: seq<seq<Node>>)
    requires |mores| == |parts|
    ensures Positions(WithMores(parts, mores)) == Positions(parts)
  {
    if parts != [] {
      WithMoresCons(parts, mores);
      SamePositions(parts[1..], mores[1..]);
    }
  }

  // ---- A level that is not the record level does not see the records ----

  /** Stretches that each end with the sample record. */
  function Samples(target: string, n: nat): seq<seq<Node>> {
    seq(n, i => [Sample(target)])
  }

  lemma SampleIsUnseen(target: string, below: seq<Level>)
    requires below != []
    ensures RestRecords(target, Rest(below, [Sample(target)])) == RestRecords(target, Rest(below, []))
  {
    SampleIsRecord(target);
    AboveAdds(target, below[1..], [Sample(target)]);
    AboveAdds(target, below[1..], []);
    assert Above(target, below[1..], []) + [] == Above(target, below[1..], []);
  }

  /** Taking away the record at which such a stretch ends changes nothing that is emitted, and one
      of the records that ought to be. */
  lemma {:induction false} OneUnseen(target: string, parts: seq<Part>, mores: seq<seq<Node>>, last: Rest, i: nat)
    requires |mores| == |parts| && i < |parts| && parts[i].rest.below != [] && mores[i] == [Sample(target)]
    ensures var all, fewer := WithMores(parts, mores), WithMores(parts, mores[i := []]);
            && AllRecords(target, fewer, last) == AllRecords(target, all, last)
            && |CompleteRecords(target, all, last.more)| == |CompleteRecords(target, fewer, last.more)| + 1
    decreases i
  {
    var less := mores[i := []];
    WithMoresCons(parts, mores);
    WithMoresCons(parts, less);
    SampleIsRecord(target);
    if i == 0 {
      assert less[1..] == mores[1..];
      SampleIsUnseen(target, parts[0].rest.below);
    } else {
      assert less[1..] == mores[1..][i - 1 := []];
      OneUnseen(target, parts[1..], mores[1..], last, i - 1);
    }
  }

  lemma {:induction false} LastUnseen(target: string, parts: seq<Part>, below: seq<Level>)
    requires below != []
    ensures AllRecords(target, parts, Rest(below, [Sample(target)])) == AllRecords(target, parts, Rest(below, []))
    ensures |CompleteRecords(target, parts, [Sample(target)])| == |CompleteRecords(target, parts, [])| + 1
  {
    if parts == [] {
      SampleIsUnseen(target, below);
      SampleIsRecord(target);
    } else {
      LastUnseen(target, parts[1..], below);
    }
  }

  // ---- Exactly when ----

  /** The document yields its complete records, and nothing else. */
  ghost predicate Isolates(target: string, root: string, attributes: seq<Attribute>, parts: seq<Part>, last: Rest) {
    Run(target, Init(None), DamagedEvents(root, attributes, parts, last)).out
    == CompleteRecords(target, parts, last.more)
  }

  /** It does, or the errors are not followed by a tag of the target where this document has one. */
  ghost predicate IsolatesIfResynced(target: string, root: string, attributes: seq<Attribute>, parts: seq<Part>,
                                     last: Rest) {
    Resynced(target, parts, last) ==> Isolates(target, root, attributes, parts, last)
  }

  /** Samples are records, so that every resync stays where it was. */
  lemma SamplesResync(target: string, parts: seq<Part>, last: Rest, mores: seq<seq<Node>>, more: seq<Node>)
    requires Resynced(target, parts, last) && |mores| == |parts|
    requires forall i :: 0 <= i < |parts| ==>
               mores[i] == [Sample(target)] || (mores[i] == [] && parts[i].rest.below != [])
    requires more == [Sample(target)] || (more == [] && last.below != [])
    ensures Resynced(target, WithMores(parts, mores), Rest(last.below, more))
  {
    var others := WithMores(parts, mores);
    forall i | 0 < i < |others| ensures StartsAtTag(target, others[i].rest, others[i].cut) {
      assert StartsAtTag(target, parts[i].rest, parts[i].cut);
    }
    forall i | 0 <= i < |others| ensures Skippable(target, others[i].junk) {
      assert Skippable(target, parts[i].junk);
    }
  }

  lemma IsolatesIff(target: string, root: string, attributes: seq<Attribute>, parts: seq<Part>, last: Rest)
    requires Resynced(target, parts, last) && Tolerable(NO_POSITION, 0, Positions(parts))
    ensures IsolatesIfResynced(target, root, attributes, parts, last) <==>
            AllRecords(target, parts, last) == CompleteRecords(target, parts, last.more)
  {
    AnyDamage(target, root, attributes, parts, last);
  }

  /** A resync below record level: some records after that error do not come out. */
  lemma PartFails(target: string, root: string, attributes: seq<Attribute>, parts: seq<Part>, last: Rest, i: nat)
    returns (mores: seq<seq<Node>>, more: seq<Node>)
    requires Resynced(target, parts, last) && Tolerable(NO_POSITION, 0, Positions(parts))
    requires i < |parts| && parts[i].rest.below != []
    ensures |mores| == |parts|
    ensures !IsolatesIfResynced(target, root, attributes, WithMores(parts, mores), Rest(last.below, more))
  {
    mores, more := Samples(target, |parts|), [Sample(target)];
    var less := mores[i := []];
    SamplesResync(target, parts, last, mores, more);
    SamplesResync(target, parts, last, less, more);
    SamePositions(parts, mores);
    SamePositions(parts, less);
    IsolatesIff(target, root, attributes, WithMores(parts, mores), Rest(last.below, more));
    IsolatesIff(target, root, attributes, WithMores(parts, less), Rest(last.below, more));
    OneUnseen(target, parts, mores, Rest(last.below, more), i);
    if IsolatesIfResynced(target, root, attributes, WithMores(parts, mores), Rest(last.below, more)) {
      mores := less;
    }
  }

  lemma LastFails(target: string, root: string, attributes: seq<Attribute>, parts: seq<Part>, last: Rest)
    returns (mores: seq<seq<Node>>, more: seq<Node>)
    requires Resynced(target, parts, last) && Tolerable(NO_POSITION, 0, Positions(parts)) && last.below != []
    ensures |mores| == |parts|
    ensures !IsolatesIfResynced(target, root, attributes, WithMores(parts, mores), Rest(last.below, more))
  {
    mores, more := Samples(target, |parts|), [Sample(target)];
    SamplesResync(target, parts, last, mores, more);
    SamplesResync(target, parts, last, mores, []);
    SamePositions(parts, mores);
    IsolatesIff(target, root, attributes, WithMores(parts, mores), Rest(last.below, more));
    IsolatesIff(target, root, attributes, WithMores(parts, mores), Rest(last.below, []));
    LastUnseen(target, WithMores(parts, mores), last.below);
    if IsolatesIfResynced(target, root, attributes, WithMores(parts, mores), Rest(last.below, more)) {
      more := [];
    }
  }

  lemma AllHold(target: string, root: string, attributes: seq<Attribute>, parts: seq<Part>, mores: seq<seq<Node>>,
                more: seq<Node>)
    requires AtRecordLevels(parts) && Tolerable(NO_POSITION, 0, Positions(parts)) && |mores| == |parts|
    ensures IsolatesIfResynced(target, root, attributes, WithMores(parts, mores), Rest([], more))
  {
    SamePositions(parts, mores);
    if Resynced(target, WithMores(parts, mores), Rest([], more)) {
      DamagedDocument(target, root, attributes, WithMores(parts, mores), more);
    }
  }

  /** Fault isolation for every error of a document: it yields its complete records, and nothing
      else, whichever records stand between its errors and after them, if and only if at every
      error the tag at which the parser resyncs is at record level. */
  lemma EveryErrorIff(target: string, root: string, attributes: seq<Attribute>, parts: seq<Part>, last: Rest)
    requires Resynced(target, parts, last) && Tolerable(NO_POSITION, 0, Positions(parts))
    ensures AtRecordLevels(parts) && last.below == [] <==>
            forall mores, more :: |mores| == |parts| ==>
              IsolatesIfResynced(target, root, attributes, WithMores(parts, mores), Rest(last.below, more))
  {
    if last.below != [] {
      var mores, more := LastFails(target, root, attributes, parts, last);
    } else if i :| 0 <= i < |parts| && parts[i].rest.below != [] {
      var mores, more := PartFails(target, root, attributes, parts, last, i);
    } else {
      forall mores, more | |mores| == |parts|
        ensures IsolatesIfResynced(target, root, attributes, WithMores(parts, mores), Rest(last.below, more))
      {
        AllHold(target, root, attributes, parts, mores, more);
      }
    }
  }

  // ---- A labels file ----

  function Label(id: string): Node {
    EmptyElem("label", [Attribute("id", id)])
  }

  /** Label 1 is cut off inside its sublabels. */
  function LabelOne(): Part {
    Part(Rest([], []), Open("label", [Attribute("id", "1")], [], Open("sublabels", [], [], Nothing)), 40, [])
  }

  /** Its sublabel 2 and the ends of both elements are left. */
  function LeftOfLabelOne(): seq<Level> {
    [Level([Label("2")], "sublabels"), Level([], "label")]
  }

  function LabelsFile(): seq<Event> {
    DamagedEvents("labels", [], [LabelOne()], Rest(LeftOfLabelOne(), [Label("3")]))
  }

  lemma LabelIsRecord(id: string)
    ensures RecordsOf("label", [Label(id)]) == [DataMessage(id, Obj(map["@id" := Str(id)]))]
  {
    var attributes := Label(id).attributes;
    assert [Label(id)][1..] == [];
    assert attributes[..0] == [] && AttributeMap(attributes) == map["id" := id];
    assert !HasText("");
    assert "@" + "id" == "@id" && "@id"[1..] == "id";
    assert AtKeys(map["id" := id]) == {"@id"};
    assert AtFields(map["id" := id]) == map["@id" := Str(id)];
    var empty: map<string, Value> := map[];
    assert map["@id" := Str(id)] + empty + empty == map["@id" := Str(id)];
    assert Convert(Label(id)) == Obj(map["@id" := Str(id)]);
    assert map["@id" := Str(id)] - {"id"} == map["@id" := Str(id)];
  }

  lemma LeftEvents()
    ensures BelowEvents(LeftOfLabelOne()) == [Empty("label", [Attribute("id", "2")]), End("sublabels"), End("label")]
    ensures !NoTagLeft("label", LeftOfLabelOne())
  {
    var below := LeftOfLabelOne();
    assert below[1..] == [Level([], "label")] && below[1..][1..] == [];
    OneNode(Label("2"));
    assert BelowEvents(below[1..]) == [End("label")];
    assert IsTag("label", BelowEvents(below)[0]);
  }

  lemma LabelOneEvents()
    ensures PartsEvents([LabelOne()])
         == [Start("label", [Attribute("id", "1")]), Start("sublabels", []), Bad(40)]
  {
    assert [LabelOne()][1..] == [];
    assert CutEvents(Open("sublabels", [], [], Nothing)) == [Start("sublabels", [])];
    assert CutEvents(LabelOne().cut) == [Start("label", [Attribute("id", "1")]), Start("sublabels", [])];
    assert RestEvents(Rest([], [])) == [];
  }

  lemma LabelOneInterrupts()
    ensures Interrupted("label", [LabelOne()]) && PartsRecords("label", [LabelOne()]) == []
    ensures CompleteRecords("label", [LabelOne()], [Label("3")]) == RecordsOf("label", [Label("3")])
  {
    assert [LabelOne()][1..] == [] && Positions([LabelOne()]) == [40];
  }

  lemma LabelTwoIsPromoted()
    ensures Promoted("label", LeftOfLabelOne()) == RecordsOf("label", [Label("2")])
  {
    var below := LeftOfLabelOne();
    assert below[1..] == [Level([], "label")] && below[1..][1..] == [];
    assert Sought("label", Rest(below, [])) == Some(Rest(below, []));
    assert Above("label", below[1..], []) == [];
  }

  /** What the tokenizer makes of the file. */
  lemma LabelsFileEvents()
    ensures LabelsFile()
         == [Start("labels", []), Start("label", [Attribute("id", "1")]), Start("sublabels", []), Bad(40),
             Empty("label", [Attribute("id", "2")]), End("sublabels"), End("label"),
             Empty("label", [Attribute("id", "3")]), End("labels")]
  {
    LeftEvents();
    LabelOneEvents();
    OneNode(Label("3"));
  }

  /** With one error inside label 1, its sublabel 2 is emitted as a label and label 3, which is
      complete, is not; and the file is parsed with Ok. */
  lemma LabelThreeIsLost()
    ensures var m := Run("label", Init(None), LabelsFile());
            m.halt == Going && m.out == [DataMessage("2", Obj(map["@id" := Str("2")]))]
    ensures CompleteRecords("label", [LabelOne()], [Label("3")]) == [DataMessage("3", Obj(map["@id" := Str("3")]))]
  {
    LabelIsRecord("2");
    LabelIsRecord("3");
    LeftEvents();
    LabelTwoIsPromoted();
    LabelOneInterrupts();
    LaterRecordsAreLost("label", "labels", [], [LabelOne()], LeftOfLabelOne(), [Label("3")]);
  }
}
