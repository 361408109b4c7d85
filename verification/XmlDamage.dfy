/** Damaged documents: what is emitted, whatever the damage. The first tag of the records' name
    after an error becomes the record level, wherever it is in the document; where it is at record
    level, exactly the complete records are emitted. */
module XmlDamage {
  import opened Json
  import opened Xml
  import opened XmlParser
  import opened XmlRefinement
  import opened XmlFaults

  /** Elements that are open when an error cuts them off, each with the nodes completed in it. */
  datatype Cut = Nothing | Open(name: string, attributes: seq<Attribute>, complete: seq<Node>, inner: Cut)

  /** What is left of an open element: nodes, and the end tag that closes it. */
  datatype Level = Level(nodes: seq<Node>, closes: string)

  /** A stretch of a document without an error, from anywhere: what is left of the elements that
      it closes, innermost first, and complete nodes where it ends. */
  datatype Rest = Rest(below: seq<Level>, more: seq<Node>)

  /** A stretch, perhaps the beginning of another element, an error, and what the tokenizer makes
      of the document up to the next tag of the target. */
  datatype Part = Part(rest: Rest, cut: Cut, position: nat, junk: seq<Event>)

  function CutEvents(cut: Cut): seq<Event> {
    match cut
    case Nothing => []
    case Open(name, attributes, complete, inner) =>
      [Start(name, attributes)] + (EventsOf(complete) + CutEvents(inner))
  }

  function BelowEvents(below: seq<Level>): seq<Event> {
    if below == [] then []
    else EventsOf(below[0].nodes) + ([End(below[0].closes)] + BelowEvents(below[1..]))
  }

  function RestEvents(rest: Rest): seq<Event> {
    BelowEvents(rest.below) + EventsOf(rest.more)
  }

  function PartEvents(part: Part): seq<Event> {
    (RestEvents(part.rest) + CutEvents(part.cut)) + ([Bad(part.position)] + part.junk)
  }

  function PartsEvents(parts: seq<Part>): seq<Event> {
    if parts == [] then [] else PartEvents(parts[0]) + PartsEvents(parts[1..])
  }

  function Positions(parts: seq<Part>): seq<nat> {
    if parts == [] then [] else [parts[0].position] + Positions(parts[1..])
  }

  // ---- What is emitted ----

  /** Once the anchor's level has been left, the document is read as if its root were one level
      higher: only what is right below an element of these levels is a record. */
  function Above(target: string, below: seq<Level>, more: seq<Node>): seq<DataMessage> {
    if below == [] then DocumentRecords(target, more)
    else DocumentRecords(target, below[0].nodes) + Above(target, below[1..], more)
  }

  /** The records of a stretch whose first nodes are taken for the record level. */
  function RestRecords(target: string, rest: Rest): seq<DataMessage> {
    if rest.below == [] then RecordsOf(target, rest.more)
    else RecordsOf(target, rest.below[0].nodes) + Above(target, rest.below[1..], rest.more)
  }

  /** An element that is cut off emits nothing, unless its level is above the anchor's. */
  function PartRecords(target: string, part: Part): seq<DataMessage> {
    RestRecords(target, part.rest)
    + (if part.rest.below != [] && part.cut.Open? then RecordsOf(target, part.cut.complete) else [])
  }

  function AllRecords(target: string, parts: seq<Part>, last: Rest): seq<DataMessage> {
    if parts == [] then RestRecords(target, last)
    else PartRecords(target, parts[0]) + AllRecords(target, parts[1..], last)
  }

  /** The complete records, before, between and after the errors. */
  function CompleteRecords(target: string, parts: seq<Part>, last: seq<Node>): seq<DataMessage> {
    if parts == [] then RecordsOf(target, last)
    else RecordsOf(target, parts[0].rest.more) + CompleteRecords(target, parts[1..], last)
  }

  // ---- Where the parser resyncs ----

  predicate IsTag(target: string, e: Event) {
    (e.Start? || e.Empty?) && e.name == target
  }

  /** What is skipped while resyncing: no further error, no tag of the target. */
  predicate Skippable(target: string, junk: seq<Event>) {
    forall i :: 0 <= i < |junk| ==> !junk[i].Bad? && !IsTag(target, junk[i])
  }

  predicate IsRecord(target: string, n: Node) {
    IsElement(n) && n.name == target
  }

  function FirstNodes(rest: Rest): seq<Node> {
    if rest.below == [] then rest.more else rest.below[0].nodes
  }

  /** The stretch begins with a tag of the target, at whatever level of the document; or there is
      nothing before the next error, or only an element of that name that it cuts off. */
  predicate StartsAtTag(target: string, rest: Rest, cut: Cut) {
    if FirstNodes(rest) != [] then IsRecord(target, FirstNodes(rest)[0])
    else rest.below == [] && (cut.Open? ==> cut.name == target)
  }

  /** After every error what follows is junk up to the next tag of the target. Any document with
      errors in it is of this form. */
  predicate Resynced(target: string, parts: seq<Part>, last: Rest) {
    && (forall i :: 0 <= i < |parts| ==> Skippable(target, parts[i].junk))
    && (forall i :: 0 < i < |parts| ==> StartsAtTag(target, parts[i].rest, parts[i].cut))
    && (parts != [] ==> StartsAtTag(target, last, Nothing))
  }

  /** And that tag is at record level: no stretch closes an element that was open there. */
  predicate AtRecordLevels(parts: seq<Part>) {
    forall i :: 0 <= i < |parts| ==> parts[i].rest.below == []
  }

  /** Between two records, or looking for the next one. */
  ghost predicate Between(m: Machine) {
    m.halt == Going && !m.inTarget && m.stack == [] && m.room == None && (m.resyncing || m.depth == 1)
  }

  /** The parser as it is when the tag at which it resyncs has been recognized. */
  function Anchored(m: Machine): Machine {
    m.(resyncing := false, depth := 1)
  }

  lemma AnchorsAtTag(target: string, m: Machine, events: seq<Event>)
    requires Between(m) && events != [] && IsTag(target, events[0])
    ensures Run(target, m, events) == Run(target, Anchored(m), events)
  {
  }

  lemma RecordStarts(target: string, nodes: seq<Node>)
    requires nodes != [] && IsRecord(target, nodes[0])
    ensures EventsOf(nodes) != [] && IsTag(target, EventsOf(nodes)[0])
  {
  }

  // ---- A cut emits nothing ----

  ghost predicate SameOutput(m: Machine, m': Machine) {
    && m'.halt == Going && m'.room == None && m'.out == m.out
    && m'.malformed == m.malformed && m'.lastError == m.lastError
  }

  /** In an open element, inside a record or outside of one. */
  ghost predicate Within(m: Machine) {
    Building(m) || (m.halt == Going && !m.resyncing && !m.inTarget && m.depth >= 2)
  }

  lemma WithinNodes(target: string, m: Machine, nodes: seq<Node>)
    requires Within(m) && m.room == None
    ensures Within(Run(target, m, EventsOf(nodes))) && SameOutput(m, Run(target, m, EventsOf(nodes)))
  {
    if Building(m) {
      InsideRecord(target, m, nodes);
    } else {
      OutsideRecord(target, m, nodes);
    }
  }

  lemma {:induction false} CutWithin(target: string, m: Machine, cut: Cut)
    requires Within(m) && m.room == None
    ensures SameOutput(m, Run(target, m, CutEvents(cut)))
    decreases cut
  {
    if cut.Open? {
      OpensWithin(target, m, cut.name, cut.attributes);
      CutOpened(target, m, Step(target, m, Start(cut.name, cut.attributes)), cut);
    }
  }

  lemma OpensWithin(target: string, m: Machine, name: string, attributes: seq<Attribute>)
    requires Within(m) || (Between(m) && !m.resyncing)
    requires m.room == None
    ensures var m' := Step(target, m, Start(name, attributes)); Within(m') && SameOutput(m, m')
  {
  }

  lemma {:induction false} CutOpened(target: string, m: Machine, entered: Machine, cut: Cut)
    requires cut.Open? && entered == Step(target, m, Start(cut.name, cut.attributes)) && Within(entered)
             && entered.room == None
    ensures SameOutput(entered, Run(target, m, CutEvents(cut)))
    decreases cut, 0
  {
    var content := EventsOf(cut.complete) + CutEvents(cut.inner);
    assert CutEvents(cut)[1..] == content;
    WithinNodes(target, entered, cut.complete);
    RunAppend(target, entered, EventsOf(cut.complete), CutEvents(cut.inner));
    CutWithin(target, Run(target, entered, EventsOf(cut.complete)), cut.inner);
  }

  lemma CutAtRecord(target: string, m: Machine, cut: Cut)
    requires Between(m) && (m.resyncing && cut.Open? ==> cut.name == target)
    ensures SameOutput(m, Run(target, m, CutEvents(cut)))
  {
    if cut.Open? {
      var here := if m.resyncing then Anchored(m) else m;
      OpensWithin(target, here, cut.name, cut.attributes);
      CutOpened(target, here, Step(target, here, Start(cut.name, cut.attributes)), cut);
      if m.resyncing {
        AnchorsAtTag(target, m, CutEvents(cut));
      }
    }
  }

  // ---- A stretch without an error ----

  lemma {:induction false} AboveRun(target: string, m: Machine, below: seq<Level>, more: seq<Node>)
    requires Ready(m) && m.depth == 0
    ensures Run(target, m, BelowEvents(below) + EventsOf(more)) == Emitting(m, Above(target, below, more))
    decreases |below|
  {
    if below == [] {
      assert BelowEvents(below) + EventsOf(more) == EventsOf(more);
      TopLevel(target, m, more);
    } else {
      var nodes, rest := below[0].nodes, BelowEvents(below[1..]) + EventsOf(more);
      LevelRun(target, m, below[0], rest);
      AboveRun(target, Emitting(m, DocumentRecords(target, nodes)), below[1..], more);
      EmittingTwice(m, DocumentRecords(target, nodes), Above(target, below[1..], more));
      BelowFirst(below, EventsOf(more));
    }
  }

  lemma BelowFirst(below: seq<Level>, after: seq<Event>)
    requires below != []
    ensures BelowEvents(below) + after
         == EventsOf(below[0].nodes) + ([End(below[0].closes)] + (BelowEvents(below[1..]) + after))
  {
  }

  /** The elements of one level below the root, and the end that leaves it. */
  lemma LevelRun(target: string, m: Machine, level: Level, rest: seq<Event>)
    requires Ready(m) && m.depth == 0
    ensures Run(target, m, EventsOf(level.nodes) + ([End(level.closes)] + rest))
         == Run(target, Emitting(m, DocumentRecords(target, level.nodes)), rest)
  {
    TopLevel(target, m, level.nodes);
    EndThen(target, Emitting(m, DocumentRecords(target, level.nodes)), level.closes, rest);
    RunAppend(target, m, EventsOf(level.nodes), [End(level.closes)] + rest);
  }

  /** Between two elements an end tag only leaves a level; at the top there is none to leave. */
  lemma EndThen(target: string, m: Machine, name: string, rest: seq<Event>)
    requires Ready(m)
    ensures Run(target, m, [End(name)] + rest)
            == Run(target, m.(depth := if m.depth == 0 then 0 else m.depth - 1), rest)
  {
    assert ([End(name)] + rest)[1..] == rest;
  }

  /** The stretch read with its first nodes as the record level. */
  lemma RestRun(target: string, m: Machine, rest: Rest)
    requires Ready(m) && m.depth == 1
    ensures Run(target, m, RestEvents(rest))
         == Emitting(m.(depth := if rest.below == [] then 1 else 0), RestRecords(target, rest))
  {
    if rest.below == [] {
      assert RestEvents(rest) == EventsOf(rest.more);
      RecordLevel(target, m, rest.more);
    } else {
      var level := rest.below[0];
      var left := Emitting(m.(depth := 0), RecordsOf(target, level.nodes));
      AnchorLevelRun(target, m, level, BelowEvents(rest.below[1..]) + EventsOf(rest.more));
      AboveRun(target, left, rest.below[1..], rest.more);
      EmittingTwice(m.(depth := 0), RecordsOf(target, level.nodes), Above(target, rest.below[1..], rest.more));
      BelowFirst(rest.below, EventsOf(rest.more));
    }
  }

  /** The elements at the anchor's level, and the end that leaves it. */
  lemma AnchorLevelRun(target: string, m: Machine, level: Level, rest: seq<Event>)
    requires Ready(m) && m.depth == 1
    ensures Run(target, m, EventsOf(level.nodes) + ([End(level.closes)] + rest))
         == Run(target, Emitting(m.(depth := 0), RecordsOf(target, level.nodes)), rest)
  {
    RecordLevel(target, m, level.nodes);
    EndThen(target, Emitting(m, RecordsOf(target, level.nodes)), level.closes, rest);
    RunAppend(target, m, EventsOf(level.nodes), [End(level.closes)] + rest);
  }

  lemma RestStarts(target: string, rest: Rest)
    requires FirstNodes(rest) != [] && IsRecord(target, FirstNodes(rest)[0])
    ensures RestEvents(rest) != [] && IsTag(target, RestEvents(rest)[0])
  {
    RecordStarts(target, FirstNodes(rest));
  }

  /** Also the first stretch after an error, from the tag at which the parser resyncs. */
  lemma StretchRun(target: string, m: Machine, rest: Rest)
    requires Between(m) && (m.resyncing && FirstNodes(rest) != [] ==> IsRecord(target, FirstNodes(rest)[0]))
    requires m.resyncing && FirstNodes(rest) == [] ==> rest.below == []
    ensures Run(target, m, RestEvents(rest))
         == if m.resyncing && FirstNodes(rest) == [] then m
            else Emitting(Anchored(m).(depth := if rest.below == [] then 1 else 0), RestRecords(target, rest))
  {
    if m.resyncing && FirstNodes(rest) == [] {
      assert RestEvents(rest) == [];
    } else {
      RestRun(target, Anchored(m), rest);
      if m.resyncing {
        RestStarts(target, rest);
        AnchorsAtTag(target, m, RestEvents(rest));
      }
    }
  }

  // ---- One error, and all of them ----

  lemma {:induction false} JunkIsSkipped(target: string, m: Machine, junk: seq<Event>)
    requires Between(m) && m.resyncing && Skippable(target, junk)
    ensures Run(target, m, junk) == m
    decreases |junk|
  {
    if junk != [] {
      assert Skippable(target, junk[1..]) by {
        forall i | 0 <= i < |junk[1..]| ensures !junk[1..][i].Bad? && !IsTag(target, junk[1..][i]) {
          assert junk[1..][i] == junk[i + 1];
        }
      }
      JunkIsSkipped(target, m, junk[1..]);
    }
  }

  /** After a tolerated error the parser looks for the next record, and has emitted nothing more. */
  lemma ErrorAndJunk(target: string, m: Machine, position: nat, junk: seq<Event>)
    requires m.halt == Going && m.room == None && Skippable(target, junk)
    requires position != m.lastError && m.malformed + 1 <= MAX_MALFORMED_RECORDS_PER_FILE
    ensures Run(target, m, [Bad(position)] + junk) == OnError(m, position)
    ensures Between(OnError(m, position)) && OnError(m, position).resyncing
  {
    assert ([Bad(position)] + junk)[1..] == junk;
    JunkIsSkipped(target, OnError(m, position), junk);
  }

  /** Above the anchor's level an element that is cut off is taken for a root. */
  lemma CutAbove(target: string, m: Machine, cut: Cut)
    requires Ready(m) && m.depth == 0
    ensures var m' := Run(target, m, CutEvents(cut));
            && m'.halt == Going && m'.room == None && m'.malformed == m.malformed && m'.lastError == m.lastError
            && m'.out == m.out + if cut.Open? then RecordsOf(target, cut.complete) else []
  {
    if cut.Open? {
      var entered := m.(depth := 1);
      var content := EventsOf(cut.complete) + CutEvents(cut.inner);
      assert CutEvents(cut)[1..] == content;
      RecordLevel(target, entered, cut.complete);
      RunAppend(target, entered, EventsOf(cut.complete), CutEvents(cut.inner));
      CutAtRecord(target, Emitting(entered, RecordsOf(target, cut.complete)), cut.inner);
    }
  }

  /** The parser before an error: it has emitted these records. */
  ghost predicate Reads(m: Machine, m': Machine, records: seq<DataMessage>) {
    && m'.halt == Going && m'.room == None && m'.malformed == m.malformed && m'.lastError == m.lastError
    && m'.out == m.out + records
  }

  lemma StretchAndCut(target: string, m: Machine, part: Part)
    requires Between(m) && (m.resyncing ==> StartsAtTag(target, part.rest, part.cut))
    ensures Reads(m, Run(target, m, RestEvents(part.rest) + CutEvents(part.cut)), PartRecords(target, part))
  {
    StretchRun(target, m, part.rest);
    var m1 := Run(target, m, RestEvents(part.rest));
    RunAppend(target, m, RestEvents(part.rest), CutEvents(part.cut));
    if part.rest.below == [] {
      CutAtRecord(target, m1, part.cut);
    } else {
      CutAbove(target, m1, part.cut);
      EmittingTwice(m, RestRecords(target, part.rest), if part.cut.Open? then RecordsOf(target, part.cut.complete)
                    else []);
    }
  }

  /** The parser after a part: it has emitted these records and seen one more error. */
  ghost predicate AfterPart(m: Machine, m': Machine, records: seq<DataMessage>, position: nat) {
    && Between(m') && m'.resyncing
    && m'.out == m.out + records
    && m'.malformed == m.malformed + 1 && m'.lastError == position
  }

  lemma PartRun(target: string, m: Machine, part: Part)
    requires Between(m) && (m.resyncing ==> StartsAtTag(target, part.rest, part.cut)) && Skippable(target, part.junk)
    requires part.position != m.lastError && m.malformed + 1 <= MAX_MALFORMED_RECORDS_PER_FILE
    ensures AfterPart(m, Run(target, m, PartEvents(part)), PartRecords(target, part), part.position)
  {
    StretchAndCut(target, m, part);
    var before := RestEvents(part.rest) + CutEvents(part.cut);
    var bad := [Bad(part.position)] + part.junk;
    ErrorAndJunk(target, Run(target, m, before), part.position, part.junk);
    RunAppend(target, m, before, bad);
  }

  /** Between two elements, or looking for the next record, having emitted these records. */
  ghost predicate Finishes(m: Machine, m': Machine, records: seq<DataMessage>) {
    m'.halt == Going && !m'.inTarget && m'.out == m.out + records
  }

  predicate Resyncable(target: string, m: Machine, parts: seq<Part>, last: Rest) {
    m.resyncing ==>
      if parts == [] then StartsAtTag(target, last, Nothing) else StartsAtTag(target, parts[0].rest, parts[0].cut)
  }

  lemma FinishesTwice(m: Machine, m1: Machine, m2: Machine, a: seq<DataMessage>, b: seq<DataMessage>)
    requires m1.out == m.out + a && Finishes(m1, m2, b)
    ensures Finishes(m, m2, a + b)
  {
  }

  lemma RestResynced(target: string, m: Machine, parts: seq<Part>, last: Rest)
    requires parts != [] && Resynced(target, parts, last)
    ensures Resynced(target, parts[1..], last)
    ensures Positions(parts) != []
    ensures Skippable(target, parts[0].junk)
    ensures Resyncable(target, m, parts[1..], last)
  {
    forall i | 0 <= i < |parts[1..]| ensures Skippable(target, parts[1..][i].junk) {
      assert parts[1..][i] == parts[i + 1];
    }
    forall i | 0 < i < |parts[1..]| ensures StartsAtTag(target, parts[1..][i].rest, parts[1..][i].cut) {
      assert parts[1..][i] == parts[i + 1];
    }
  }

  lemma PartsCons(parts: seq<Part>, last: Rest)
    requires parts != []
    ensures PartsEvents(parts) + RestEvents(last) == PartEvents(parts[0]) + (PartsEvents(parts[1..]) + RestEvents(last))
  {
  }

  /** All of the file, from a place between two records. */
  lemma {:induction false} PartsRun(target: string, m: Machine, parts: seq<Part>, last: Rest)
    requires Between(m) && Tolerable(m.lastError, m.malformed, Positions(parts)) && Resynced(target, parts, last)
    requires Resyncable(target, m, parts, last)
    ensures Finishes(m, Run(target, m, PartsEvents(parts) + RestEvents(last)), AllRecords(target, parts, last))
    decreases |parts|, 1
  {
    if parts == [] {
      assert PartsEvents(parts) + RestEvents(last) == RestEvents(last);
      StretchRun(target, m, last);
    } else {
      TolerableCons(m.lastError, m.malformed, Positions(parts));
      assert Positions(parts)[1..] == Positions(parts[1..]);
      RestResynced(target, Run(target, m, PartEvents(parts[0])), parts, last);
      PartRun(target, m, parts[0]);
      PartsCons(parts, last);
      RunAppend(target, m, PartEvents(parts[0]), PartsEvents(parts[1..]) + RestEvents(last));
      PartsAfter(target, m, Run(target, m, PartEvents(parts[0])), parts, last);
    }
  }

  lemma {:induction false} PartsAfter(target: string, m: Machine, m1: Machine, parts: seq<Part>, last: Rest)
    requires parts != [] && AfterPart(m, m1, PartRecords(target, parts[0]), parts[0].position)
    requires Tolerable(m1.lastError, m1.malformed, Positions(parts[1..])) && Resynced(target, parts[1..], last)
    requires Resyncable(target, m1, parts[1..], last)
    ensures Finishes(m, Run(target, m1, PartsEvents(parts[1..]) + RestEvents(last)), AllRecords(target, parts, last))
    decreases |parts|, 0
  {
    PartsRun(target, m1, parts[1..], last);
    FinishesTwice(m, m1, Run(target, m1, PartsEvents(parts[1..]) + RestEvents(last)),
                  PartRecords(target, parts[0]), AllRecords(target, parts[1..], last));
  }

  /** A document with errors in it. */
  function DamagedEvents(root: string, attributes: seq<Attribute>, parts: seq<Part>, last: Rest): seq<Event> {
    [Start(root, attributes)] + (PartsEvents(parts) + RestEvents(last) + [End(root)])
  }

  lemma RootCloses(target: string, m: Machine, root: string)
    requires m.halt == Going && !m.inTarget
    ensures Step(target, m, End(root)).halt == Going && Step(target, m, End(root)).out == m.out
  {
  }

  /** Whatever the damage: with tolerated errors, what is emitted is exactly what each stretch
      holds when its first tag of the target is taken for the record level. A tag below that level
      makes its siblings records; and once their element ends, the records of the document are no
      longer seen, only what has the target's name right below one of them. */
  lemma AnyDamage(target: string, root: string, attributes: seq<Attribute>, parts: seq<Part>, last: Rest)
    requires Resynced(target, parts, last) && Tolerable(NO_POSITION, 0, Positions(parts))
    ensures var m := Run(target, Init(None), DamagedEvents(root, attributes, parts, last));
            m.halt == Going && m.out == AllRecords(target, parts, last)
  {
    var rest := PartsEvents(parts) + RestEvents(last);
    var m := Step(target, Init(None), Start(root, attributes));
    PartsRun(target, m, parts, last);
    assert DamagedEvents(root, attributes, parts, last)[1..] == rest + [End(root)];
    RunAppend(target, m, rest, [End(root)]);
    assert [End(root)][1..] == [];
    RootCloses(target, Run(target, m, rest), root);
    assert [] + AllRecords(target, parts, last) == AllRecords(target, parts, last);
  }

  lemma {:induction false} CompleteOnly(target: string, parts: seq<Part>, last: seq<Node>)
    requires AtRecordLevels(parts)
    ensures AllRecords(target, parts, Rest([], last)) == CompleteRecords(target, parts, last)
  {
    if parts != [] {
      CompleteOnly(target, parts[1..], last);
      assert PartRecords(target, parts[0]) == RecordsOf(target, parts[0].rest.more);
    }
  }

  /** Fault isolation: with tolerated errors and resyncs at record level, the parser emits exactly
      the complete records, each as the recursive converter gives it: those before an error, those
      between two, those after the last; and it ends with Ok. */
  lemma DamagedDocument(target: string, root: string, attributes: seq<Attribute>, parts: seq<Part>, last: seq<Node>)
    requires Resynced(target, parts, Rest([], last)) && AtRecordLevels(parts)
             && Tolerable(NO_POSITION, 0, Positions(parts))
    ensures var m := Run(target, Init(None), DamagedEvents(root, attributes, parts, Rest([], last)));
            m.halt == Going && m.out == CompleteRecords(target, parts, last)
  {
    AnyDamage(target, root, attributes, parts, Rest([], last));
    CompleteOnly(target, parts, last);
  }

  /** A tag inside a damaged record: after any part, at any depth, with any siblings, and with any
      records of the document after it. The element and its siblings are emitted as records, and
      of everything after them only what has the target's name right below an element, so that
      without such children all later records are lost; and the parse ends with Ok. */
  lemma NestedResyncPromotes(target: string, root: string, attributes: seq<Attribute>, part: Part, inner: Node,
                             siblings: seq<Node>, group: string, levels: seq<Level>, more: seq<Node>)
    requires Skippable(target, part.junk) && part.position != NO_POSITION && IsRecord(target, inner)
    ensures var rest := Rest([Level([inner] + siblings, group)] + levels, more);
            var m := Run(target, Init(None), DamagedEvents(root, attributes, [part], rest));
            && m.halt == Going
            && m.out == PartRecords(target, part)
              + (RecordsOf(target, [inner] + siblings) + Above(target, levels, more))
  {
    var rest := Rest([Level([inner] + siblings, group)] + levels, more);
    assert rest.below[1..] == levels;
    assert [part][1..] == [];
    assert Positions([part]) == [part.position];
    AnyDamage(target, root, attributes, [part], rest);
    assert AllRecords(target, [part], rest) == PartRecords(target, part) + AllRecords(target, [part][1..], rest);
  }

  /** Without the error the same events are a document with no record but the outer one. */
  lemma NestedIsNoRecord(target: string, root: string, group: string, attributes: seq<Attribute>, inner: Node)
    requires IsRecord(target, inner) && group != target
    ensures var outer := Elem(target, attributes, [Elem(group, [], [inner])]);
            && Events(outer)
              == [Start(target, attributes)] + ([Start(group, [])] + Events(inner) + [End(group)]) + [End(target)]
            && Run(target, Init(None), EventsOf([Elem(root, [], [outer])])).out == RecordsOf(target, [outer])
  {
    var grouped := Elem(group, [], [inner]);
    var outer := Elem(target, attributes, [grouped]);
    OneNode(inner);
    OneNode(grouped);
    StackMachineRefinesRecursion(target, [Elem(root, [], [outer])]);
    assert [Elem(root, [], [outer])][1..] == [];
  }
}
