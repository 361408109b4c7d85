/** Nothing that was true of the history stops being true when it grows. */
module ProtocolHistory {
  import opened Json
  import opened Marker
  import opened MarkerFacts
  import opened Protocol
  import opened ProtocolInv

  lemma DataOfGrows(h: seq<Event>, e: Event, attempt: nat)
    ensures DataOf(h + [e], attempt)
            == DataOf(h, attempt) + (if e.Confirmed? && e.attempt == attempt then e.batch else [])
  {
    assert (h + [e])[..|h|] == h;
  }

  /** An attempt number never used has no data. */
  lemma {:induction false} DataOfFresh(h: seq<Event>, nextGen: nat, attempt: nat)
    requires forall e :: e in h ==> Numbered(e, nextGen, attempt)
    ensures DataOf(h, attempt) == []
  {
    if h != [] {
      var front := h[..|h| - 1];
      assert forall e :: e in front ==> e in h;
      DataOfFresh(front, nextGen, attempt);
      assert h[|h| - 1] in h;
    }
  }

  lemma DeliveredAtGrows(cfg: Config, h: seq<Event>, e: Event, i: int, gen: nat, f: FileName, p: FileProgress)
    requires DeliveredAt(cfg, h, i, gen, f, p)
    ensures DeliveredAt(cfg, h + [e], i, gen, f, p)
  {
    assert (h + [e])[..i] == h[..i];
  }

  lemma DeliveredGrows(cfg: Config, h: seq<Event>, e: Event, gen: nat, f: FileName, p: FileProgress)
    requires Delivered(cfg, h, gen, f, p)
    ensures Delivered(cfg, h + [e], gen, f, p)
  {
    var i :| DeliveredAt(cfg, h, i, gen, f, p);
    DeliveredAtGrows(cfg, h, e, i, gen, f, p);
  }

  lemma MarkerDeliveredGrows(cfg: Config, h: seq<Event>, e: Event, gen: nat, m: Marker)
    requires MarkerDelivered(cfg, h, gen, m)
    ensures MarkerDelivered(cfg, h + [e], gen, m)
  {
    forall f | IsCompleted(m.processing.byFile, f) ensures Delivered(cfg, h + [e], gen, f, m.processing.byFile[f]) {
      DeliveredGrows(cfg, h, e, gen, f, m.processing.byFile[f]);
    }
  }

  lemma CertificateGrows(cfg: Config, h: seq<Event>, e: Event, k: int, gen: nat, startedAt: Time,
                         counts: map<DataType, nat>)
    requires Certificate(cfg, h, k, gen, startedAt, counts)
    ensures Certificate(cfg, h + [e], k, gen, startedAt, counts)
  {
    assert (h + [e])[..k] == h[..k];
  }

  lemma HasBroadcastGrows(h: seq<Event>, e: Event, exchange: DataType, gen: nat)
    requires HasBroadcast(h, exchange, gen)
    ensures HasBroadcast(h + [e], exchange, gen)
  {
    var j :| 0 <= j < |h| && h[j].ExtractionComplete? && h[j].exchange == exchange && h[j].gen == gen;
    assert (h + [e])[j] == h[j];
  }

  lemma BackedGrows(cfg: Config, h: seq<Event>, e: Event, gen: nat, m: Marker)
    requires Backed(cfg, h, gen, m)
    requires e.ExtractionComplete? && e.gen == gen ==> m.processing.startedAt == Some(e.startedAt)
    ensures Backed(cfg, h + [e], gen, m)
  {
    MarkerDeliveredGrows(cfg, h, e, gen, m);
    if m.overall == Completed {
      forall x | x in EXCHANGES ensures HasBroadcast(h + [e], x, gen) {
        HasBroadcastGrows(h, e, x, gen);
      }
    }
  }

  /** A marker whose completed entries, start and outcome are among those of a backed one. */
  lemma BackedSame(cfg: Config, h: seq<Event>, gen: nat, m: Marker, m': Marker)
    requires Backed(cfg, h, gen, m)
    requires m'.processing.startedAt == m.processing.startedAt
    requires m'.overall == Completed ==> m.overall == Completed
    requires forall f :: IsCompleted(m'.processing.byFile, f) ==>
               IsCompleted(m.processing.byFile, f) && m'.processing.byFile[f] == m.processing.byFile[f]
    ensures Backed(cfg, h, gen, m')
  {
  }

  lemma SoundAtGrows(cfg: Config, h: seq<Event>, e: Event, j: int)
    requires SoundAt(cfg, h, j) && 0 <= j < |h|
    ensures SoundAt(cfg, h + [e], j)
  {
    if h[j].ExtractionComplete? {
      var k :| k < j && Certificate(cfg, h, k, h[j].gen, h[j].startedAt, h[j].counts);
      CertificateGrows(cfg, h, e, k, h[j].gen, h[j].startedAt, h[j].counts);
    }
  }

  /** What a new event must bring along. */
  ghost predicate EventOk(cfg: Config, s: State, e: Event) {
    && Numbered(e, s.nextGen, s.nextAttempt)
    && (e.Saved? ==> MarkerOk(e.marker, cfg.files, s.clock))
    && (e.ExtractionComplete? ==>
          && (exists k :: Certificate(cfg, s.history, k, e.gen, e.startedAt, e.counts))
          && (forall j :: 0 <= j < |s.history| && s.history[j].ExtractionComplete? && s.history[j].gen == e.gen ==>
              s.history[j].startedAt == e.startedAt))
  }

  lemma ChronicleGrows(cfg: Config, s: State, e: Event)
    requires Chronicle(cfg, s) && EventOk(cfg, s, e)
    ensures Chronicle(cfg, s.(history := s.history + [e]))
  {
    var h' := s.history + [e];
    forall j ensures SoundAt(cfg, h', j) {
      if 0 <= j < |s.history| {
        assert SoundAt(cfg, s.history, j);
        SoundAtGrows(cfg, s.history, e, j);
      } else if j == |s.history| && e.ExtractionComplete? {
        var k :| Certificate(cfg, s.history, k, e.gen, e.startedAt, e.counts);
        CertificateGrows(cfg, s.history, e, k, e.gen, e.startedAt, e.counts);
      }
    }
    assert forall x :: x in h' ==> x in s.history || x == e;
  }

  lemma ChronicleLater(cfg: Config, s: State, s': State)
    requires Chronicle(cfg, s) && s'.history == s.history
    requires s.nextGen <= s'.nextGen && s.nextAttempt <= s'.nextAttempt && s.clock <= s'.clock
    ensures Chronicle(cfg, s')
  {
  }

  /** Tasks do not notice an event unless it is data of their own attempt. */
  lemma TaskOkGrows(cfg: Config, s: State, e: Event, f: FileName, t: Task)
    requires TaskOk(cfg, s, f, t)
    requires e.Confirmed? && t.Active? ==> e.attempt != t.attempt.id
    ensures TaskOk(cfg, s.(history := s.history + [e]), f, t)
  {
    var s' := s.(history := s.history + [e]);
    match t
    case Active(a) =>
      DataOfGrows(s.history, e, a.id);
      assert EntryOf(cfg, s', f, a);
    case Announced(a) =>
      DeliveredGrows(cfg, s.history, e, s.gen, f, FinishedProgress(s.memory.processing.byFile[f], a.pipe.parsed, 0));
      assert EntryOf(cfg, s', f, a);
    case Failing(draining) =>
      if draining.Some? {
        assert EntryOf(cfg, s', f, draining.value);
      }
    case _ =>
  }
}
