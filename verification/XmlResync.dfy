/** After an error in the middle of a document: what is left of the elements that were open, and
    the document after them. Exactly when are the complete records after the error emitted? */
module XmlResync {
  import opened Json
  import opened Xml
  import opened XmlParser
  import opened XmlRefinement
  import opened XmlFaults
  import opened XmlDamage

  // ---- The first tag of the target ----

  /** The rest of the document from its first tag of the target on, if it has one. It is at
      record level exactly when no element is left that was open there. */
  function Sought(target: string, rest: Rest): (found: Option<Rest>)
    ensures found.Some? ==> FirstNodes(found.value) != [] && IsRecord(target, FirstNodes(found.value)[0])
    decreases |RestEvents(rest)|
  {
    if FirstNodes(rest) == [] && rest.below == [] then None
    else if FirstNodes(rest) == [] then
      LevelEnds(rest);
      Sought(target, Rest(rest.below[1..], rest.more))
    else if IsRecord(target, FirstNodes(rest)[0]) then Some(rest)
    else
      NextFollows(rest);
      Sought(target, Next(rest))
  }

  /** One event further into the nodes: past a node, or into an element. */
  function Next(rest: Rest): Rest
    requires FirstNodes(rest) != []
  {
    var n, others := FirstNodes(rest)[0], FirstNodes(rest)[1..];
    var past := if rest.below == [] then Rest([], others)
                else Rest([Level(others, rest.below[0].closes)] + rest.below[1..], rest.more);
    if n.Elem? then Rest([Level(n.children, n.name)] + past.below, past.more) else past
  }

  lemma LevelEnds(rest: Rest)
    requires rest.below != [] && rest.below[0].nodes == []
    ensures RestEvents(rest) == [End(rest.below[0].closes)] + RestEvents(Rest(rest.below[1..], rest.more))
  {
    assert BelowEvents(rest.below) == [End(rest.below[0].closes)] + BelowEvents(rest.below[1..]);
  }

  lemma PastEvents(rest: Rest)
    requires FirstNodes(rest) != []
    ensures var n, others := FirstNodes(rest)[0], FirstNodes(rest)[1..];
            var past := if rest.below == [] then Rest([], others)
                        else Rest([Level(others, rest.below[0].closes)] + rest.below[1..], rest.more);
            RestEvents(rest) == Events(n) + RestEvents(past)
  {
    var n, others := FirstNodes(rest)[0], FirstNodes(rest)[1..];
    if rest.below != [] {
      var level := Level(others, rest.below[0].closes);
      assert ([level] + rest.below[1..])[1..] == rest.below[1..];
      var after := [End(level.closes)] + BelowEvents(rest.below[1..]);
      assert BelowEvents(rest.below) == Events(n) + EventsOf(others) + after;
      assert BelowEvents([level] + rest.below[1..]) == EventsOf(others) + after;
    }
  }

  lemma EnterEvents(n: Node, past: Rest)
    requires n.Elem?
    ensures Events(n) + RestEvents(past)
         == [Start(n.name, n.attributes)] + RestEvents(Rest([Level(n.children, n.name)] + past.below, past.more))
  {
    assert ([Level(n.children, n.name)] + past.below)[1..] == past.below;
    assert BelowEvents([Level(n.children, n.name)] + past.below)
        == EventsOf(n.children) + ([End(n.name)] + BelowEvents(past.below));
  }

  lemma NextFollows(rest: Rest)
    requires FirstNodes(rest) != []
    ensures RestEvents(rest) == [Events(FirstNodes(rest)[0])[0]] + RestEvents(Next(rest))
  {
    var n := FirstNodes(rest)[0];
    PastEvents(rest);
    if n.Elem? {
      var others := FirstNodes(rest)[1..];
      var past := if rest.below == [] then Rest([], others)
                  else Rest([Level(others, rest.below[0].closes)] + rest.below[1..], rest.more);
      EnterEvents(n, past);
    }
  }

  /** What comes before the first tag is skipped; without a tag, everything is. */
  lemma {:induction false} SkipsTo(target: string, rest: Rest) returns (skipped: seq<Event>)
    ensures Skippable(target, skipped)
    ensures RestEvents(rest) == skipped + if Sought(target, rest).Some? then RestEvents(Sought(target, rest).value)
            else []
    decreases |RestEvents(rest)|
  {
    if FirstNodes(rest) == [] && rest.below == [] {
      skipped := [];
    } else if FirstNodes(rest) == [] {
      LevelEnds(rest);
      var later := SkipsTo(target, Rest(rest.below[1..], rest.more));
      skipped := [End(rest.below[0].closes)] + later;
    } else if IsRecord(target, FirstNodes(rest)[0]) {
      skipped := [];
    } else {
      NextFollows(rest);
      var later := SkipsTo(target, Next(rest));
      skipped := [Events(FirstNodes(rest)[0])[0]] + later;
    }
  }

  // ---- What is emitted after the error ----

  function Emitted(target: string, rest: Rest): seq<DataMessage> {
    var found := Sought(target, rest);
    if found.Some? then RestRecords(target, found.value) else []
  }

  /** The parser in the state an error leaves it in, on the rest of the document. */
  lemma AfterError(target: string, m: Machine, rest: Rest)
    requires Between(m) && m.resyncing
    ensures Finishes(m, Run(target, m, RestEvents(rest)), Emitted(target, rest))
  {
    var skipped := SkipsTo(target, rest);
    JunkIsSkipped(target, m, skipped);
    var found := Sought(target, rest);
    if found.Some? {
      RunAppend(target, m, skipped, RestEvents(found.value));
      StretchRun(target, m, found.value);
    } else {
      assert skipped + [] == skipped;
    }
  }

  function PartsRecords(target: string, parts: seq<Part>): seq<DataMessage> {
    if parts == [] then [] else PartRecords(target, parts[0]) + PartsRecords(target, parts[1..])
  }

  /** The errors in a document are over, and nothing is known of what follows. */
  predicate Interrupted(target: string, parts: seq<Part>) {
    parts != [] && Resynced(target, parts, Rest([], [])) && Tolerable(NO_POSITION, 0, Positions(parts))
  }

  lemma {:induction false} PrefixRun(target: string, m: Machine, parts: seq<Part>)
    requires Between(m) && Tolerable(m.lastError, m.malformed, Positions(parts))
    requires Resynced(target, parts, Rest([], [])) && Resyncable(target, m, parts, Rest([], []))
    ensures var m' := Run(target, m, PartsEvents(parts));
            Between(m') && (parts == [] || m'.resyncing) && m'.out == m.out + PartsRecords(target, parts)
    decreases |parts|
  {
    if parts == [] {
      assert m.out + [] == m.out;
    } else {
      TolerableCons(m.lastError, m.malformed, Positions(parts));
      assert Positions(parts)[1..] == Positions(parts[1..]);
      PartRun(target, m, parts[0]);
      var m1 := Run(target, m, PartEvents(parts[0]));
      RestResynced(target, m1, parts, Rest([], []));
      PrefixRun(target, m1, parts[1..]);
      RunAppend(target, m, PartEvents(parts[0]), PartsEvents(parts[1..]));
      PartsAdd(m.out, PartRecords(target, parts[0]), PartsRecords(target, parts[1..]));
      if parts[1..] == [] {
        assert Run(target, m1, PartsEvents(parts[1..])) == m1;
      }
    }
  }

  lemma PartsAdd<T>(a: seq<T>, b: seq<T>, c: seq<T>)
    ensures (a + b) + c == a + (b + c)
  {
  }

  /** After the last error of any damaged document: what is emitted is what was emitted before it,
      and the rest of the document as it reads from its first tag of the target. */
  lemma RestOfDocument(target: string, root: string, attributes: seq<Attribute>, parts: seq<Part>, rest: Rest)
    requires Interrupted(target, parts)
    ensures var m := Run(target, Init(None), DamagedEvents(root, attributes, parts, rest));
            m.halt == Going && m.out == PartsRecords(target, parts) + Emitted(target, rest)
  {
    var m := Step(target, Init(None), Start(root, attributes));
    var m1 := Run(target, m, PartsEvents(parts));
    PrefixRun(target, m, parts);
    AfterError(target, m1, rest);
    RunAppend(target, m, PartsEvents(parts), RestEvents(rest));
    var body := PartsEvents(parts) + RestEvents(rest);
    assert DamagedEvents(root, attributes, parts, rest)[1..] == body + [End(root)];
    RunAppend(target, m, body, [End(root)]);
    assert [End(root)][1..] == [];
    RootCloses(target, Run(target, m, body), root);
    assert [] + PartsRecords(target, parts) == PartsRecords(target, parts);
  }

  // ---- Exactly when the complete records are emitted ----

  /** No tag of the target is left inside the elements that the error interrupted. */
  predicate NoTagLeft(target: string, below: seq<Level>) {
    Skippable(target, BelowEvents(below))
  }

  /** All elements at record level are records. */
  predicate OnlyRecords(target: string, more: seq<Node>) {
    forall i :: 0 <= i < |more| && IsElement(more[i]) ==> more[i].name == target
  }

  /** The part below record level is read alike, whatever follows it. */
  lemma NextBelow(below: seq<Level>, more: seq<Node>)
    requires below != [] && below[0].nodes != []
    ensures Next(Rest(below, more)) == Rest(Next(Rest(below, [])).below, more)
    ensures BelowEvents(below) == [Events(below[0].nodes[0])[0]] + BelowEvents(Next(Rest(below, [])).below)
  {
    NextFollows(Rest(below, []));
    assert BelowEvents(below) + [] == BelowEvents(below);
    var next := BelowEvents(Next(Rest(below, [])).below);
    assert next + [] == next;
  }

  lemma SkippableCons(target: string, e: Event, rest: seq<Event>)
    ensures Skippable(target, [e] + rest) <==> !e.Bad? && !IsTag(target, e) && Skippable(target, rest)
  {
    var all := [e] + rest;
    assert all[0] == e;
    forall i | 0 <= i < |rest| ensures rest[i] == all[i + 1] {
    }
    if Skippable(target, all) {
      forall i | 0 <= i < |rest| ensures !rest[i].Bad? && !IsTag(target, rest[i]) {
        assert rest[i] == all[i + 1];
      }
    }
  }

  lemma FirstEvent(target: string, n: Node)
    ensures !Events(n)[0].Bad? && (IsTag(target, Events(n)[0]) <==> IsRecord(target, n))
  {
  }

  /** Without a tag below, the search goes on at record level. */
  lemma {:induction false} SoughtAbove(target: string, below: seq<Level>, more: seq<Node>)
    requires NoTagLeft(target, below)
    ensures Sought(target, Rest(below, more)) == Sought(target, Rest([], more))
    decreases |BelowEvents(below)|
  {
    if below != [] {
      if below[0].nodes == [] {
        LevelEnds(Rest(below, []));
        assert BelowEvents(below) == [End(below[0].closes)] + BelowEvents(below[1..]);
        SkippableCons(target, End(below[0].closes), BelowEvents(below[1..]));
        SoughtAbove(target, below[1..], more);
      } else {
        NextBelow(below, more);
        FirstEvent(target, below[0].nodes[0]);
        SkippableCons(target, Events(below[0].nodes[0])[0], BelowEvents(Next(Rest(below, [])).below));
        SoughtAbove(target, Next(Rest(below, [])).below, more);
      }
    }
  }

  /** With one, it ends below record level, in the same place whatever follows. */
  lemma {:induction false} SoughtBelow(target: string, below: seq<Level>, more: seq<Node>)
    requires !NoTagLeft(target, below)
    ensures var found := Sought(target, Rest(below, []));
            found.Some? && found.value.below != [] && found.value.more == []
            && Sought(target, Rest(below, more)) == Some(Rest(found.value.below, more))
    decreases |BelowEvents(below)|
  {
    assert below != [];
    if below[0].nodes == [] {
      LevelEnds(Rest(below, []));
      assert BelowEvents(below) == [End(below[0].closes)] + BelowEvents(below[1..]);
      SkippableCons(target, End(below[0].closes), BelowEvents(below[1..]));
      SoughtBelow(target, below[1..], more);
    } else if !IsRecord(target, below[0].nodes[0]) {
      NextBelow(below, more);
      NextBelow(below, []);
      FirstEvent(target, below[0].nodes[0]);
      SkippableCons(target, Events(below[0].nodes[0])[0], BelowEvents(Next(Rest(below, [])).below));
      SoughtBelow(target, Next(Rest(below, [])).below, more);
    }
  }

  lemma {:induction false} SoughtRecords(target: string, more: seq<Node>)
    requires OnlyRecords(target, more)
    ensures Emitted(target, Rest([], more)) == RecordsOf(target, more)
    decreases |more|
  {
    if more != [] && !IsRecord(target, more[0]) {
      NextFollows(Rest([], more));
      assert RecordsOf(target, more) == RecordsOf(target, more[1..]);
      SoughtRecords(target, more[1..]);
    }
  }

  lemma {:induction false} AboveAdds(target: string, below: seq<Level>, more: seq<Node>)
    ensures Above(target, below, more) == Above(target, below, []) + DocumentRecords(target, more)
    decreases |below|
  {
    if below != [] {
      AboveAdds(target, below[1..], more);
      PartsAdd(DocumentRecords(target, below[0].nodes), Above(target, below[1..], []), DocumentRecords(target, more));
    }
  }

  /** What is promoted from below record level, on its own. */
  function Promoted(target: string, below: seq<Level>): seq<DataMessage> {
    Emitted(target, Rest(below, []))
  }

  /** After an error, with any elements left open and any records after them: exactly those
      records, if no tag is left below record level; and otherwise what is promoted from below,
      and of the records only what has the target's name right below one of them. */
  lemma EmittedIs(target: string, below: seq<Level>, more: seq<Node>)
    requires OnlyRecords(target, more)
    ensures Emitted(target, Rest(below, more))
         == if NoTagLeft(target, below) then RecordsOf(target, more)
            else Promoted(target, below) + DocumentRecords(target, more)
  {
    if NoTagLeft(target, below) {
      SoughtAbove(target, below, more);
      SoughtRecords(target, more);
    } else {
      SoughtBelow(target, below, more);
      var levels := Sought(target, Rest(below, [])).value.below;
      AboveAdds(target, levels[1..], more);
      PartsAdd(RecordsOf(target, levels[0].nodes), Above(target, levels[1..], []), DocumentRecords(target, more));
    }
  }

  /** A record with an attribute and nothing else. */
  function Sample(target: string): Node {
    EmptyElem(target, [Attribute("id", "1")])
  }

  lemma SampleIsRecord(target: string)
    ensures |RecordsOf(target, [Sample(target)])| == 1 && DocumentRecords(target, [Sample(target)]) == []
    ensures OnlyRecords(target, [Sample(target)])
  {
    assert [Sample(target)][1..] == [];
    assert Sample(target).attributes[..0] == [];
    assert "id" in AttributeMap(Sample(target).attributes);
  }

  /** After an error the complete records that follow are emitted, and nothing else, whichever
      they are, exactly when no tag of the target is left inside the damaged record. */
  lemma RecoversIff(target: string, below: seq<Level>)
    ensures NoTagLeft(target, below) <==>
            forall more: seq<Node> :: OnlyRecords(target, more) ==>
                Emitted(target, Rest(below, more)) == RecordsOf(target, more)
  {
    if NoTagLeft(target, below) {
      forall more: seq<Node> | OnlyRecords(target, more)
        ensures Emitted(target, Rest(below, more)) == RecordsOf(target, more) {
        EmittedIs(target, below, more);
      }
    } else {
      var none: seq<Node> := [];
      SampleIsRecord(target);
      EmittedIs(target, below, none);
      EmittedIs(target, below, [Sample(target)]);
      assert Emitted(target, Rest(below, none)) == RecordsOf(target, none) ==>
             Emitted(target, Rest(below, [Sample(target)])) != RecordsOf(target, [Sample(target)]);
    }
  }

  /** For one document, where no promoted element is the same message as a record: the complete
      records are emitted, and nothing else, exactly when no tag is left inside the damaged record,
      or there is nothing to lose and nothing to promote. */
  lemma CompleteIff(target: string, below: seq<Level>, more: seq<Node>)
    requires OnlyRecords(target, more)
    requires forall r :: r in Promoted(target, below) + DocumentRecords(target, more) ==> r !in RecordsOf(target, more)
    ensures Emitted(target, Rest(below, more)) == RecordsOf(target, more) <==>
            NoTagLeft(target, below)
            || (RecordsOf(target, more) == [] && Promoted(target, below) + DocumentRecords(target, more) == [])
  {
    EmittedIs(target, below, more);
    var all := Promoted(target, below) + DocumentRecords(target, more);
    if !NoTagLeft(target, below) && all != [] {
      assert all[0] in all;
    }
  }

  lemma {:induction false} CompleteBefore(target: string, parts: seq<Part>, more: seq<Node>)
    requires AtRecordLevels(parts)
    ensures CompleteRecords(target, parts, more) == PartsRecords(target, parts) + RecordsOf(target, more)
  {
    if parts == [] {
      assert [] + RecordsOf(target, more) == RecordsOf(target, more);
    } else {
      CompleteBefore(target, parts[1..], more);
      assert PartRecords(target, parts[0]) == RecordsOf(target, parts[0].rest.more);
      PartsAdd(RecordsOf(target, parts[0].rest.more), PartsRecords(target, parts[1..]), RecordsOf(target, more));
    }
  }

  /** Fault isolation, exactly: a document whose earlier errors were followed by a record, and whose
      last one leaves these elements open, yields its complete records, whatever records follow,
      if and only if no tag of the target is left in these elements. */
  lemma IsolationIff(target: string, root: string, attributes: seq<Attribute>, parts: seq<Part>, below: seq<Level>)
    requires Interrupted(target, parts) && AtRecordLevels(parts)
    ensures NoTagLeft(target, below) <==>
            forall more: seq<Node> :: OnlyRecords(target, more) ==>
              Run(target, Init(None), DamagedEvents(root, attributes, parts, Rest(below, more))).out
                == CompleteRecords(target, parts, more)
  {
    RecoversIff(target, below);
    forall more: seq<Node> | OnlyRecords(target, more)
      ensures Run(target, Init(None), DamagedEvents(root, attributes, parts, Rest(below, more))).out
              == CompleteRecords(target, parts, more)
         <==> Emitted(target, Rest(below, more)) == RecordsOf(target, more)
    {
      RestOfDocument(target, root, attributes, parts, Rest(below, more));
      CompleteBefore(target, parts, more);
      SamePrefix(PartsRecords(target, parts), Emitted(target, Rest(below, more)), RecordsOf(target, more));
    }
  }

  lemma SamePrefix<T>(a: seq<T>, b: seq<T>, c: seq<T>)
    ensures a + b == a + c <==> b == c
  {
    if a + b == a + c {
      assert b == (a + b)[|a|..] && c == (a + c)[|a|..];
    }
  }

  /** No record has an element of the target's name right below it. */
  predicate NoChildOfTarget(target: string, more: seq<Node>) {
    forall i, j :: 0 <= i < |more| && more[i].Elem? && 0 <= j < |more[i].children| ==>
        !IsRecord(target, more[i].children[j])
  }

  lemma {:induction false} NoRecordAmong(target: string, nodes: seq<Node>)
    requires forall j :: 0 <= j < |nodes| ==> !IsRecord(target, nodes[j])
    ensures RecordsOf(target, nodes) == []
  {
    if nodes != [] {
      NoRecordAmong(target, nodes[1..]);
    }
  }

  lemma {:induction false} NothingBelow(target: string, more: seq<Node>)
    requires NoChildOfTarget(target, more)
    ensures DocumentRecords(target, more) == []
  {
    if more != [] {
      if more[0].Elem? {
        NoRecordAmong(target, more[0].children);
      }
      assert NoChildOfTarget(target, more[1..]) by {
        forall i, j | 0 <= i < |more[1..]| && more[1..][i].Elem? && 0 <= j < |more[1..][i].children|
          ensures !IsRecord(target, more[1..][i].children[j])
        {
          assert more[1..][i] == more[i + 1];
        }
      }
      NothingBelow(target, more[1..]);
    }
  }

  /** What goes wrong otherwise: if a tag is left in the damaged record, and the records after it
      have no element of the target's name right below them, then all of them are lost, and the
      file is parsed with Ok all the same. */
  lemma LaterRecordsAreLost(target: string, root: string, attributes: seq<Attribute>, parts: seq<Part>,
                            below: seq<Level>, more: seq<Node>)
    requires Interrupted(target, parts) && !NoTagLeft(target, below)
    requires OnlyRecords(target, more) && NoChildOfTarget(target, more)
    ensures var m := Run(target, Init(None), DamagedEvents(root, attributes, parts, Rest(below, more)));
            m.halt == Going && m.out == PartsRecords(target, parts) + Promoted(target, below)
  {
    RestOfDocument(target, root, attributes, parts, Rest(below, more));
    EmittedIs(target, below, more);
    NothingBelow(target, more);
    assert Promoted(target, below) + [] == Promoted(target, below);
  }
}
