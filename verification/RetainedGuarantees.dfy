/** What one operation of the retained transaction does on any node at all, reachable or not, whatever the witness
    shows. */
module RetainedGuarantees {
  import opened Durable
  import opened Host
  import opened PairPlanner
  import opened Retained

  predicate Holds(s: Node, pair: Pair) {
    s.manifest == Some(pair.0) && s.receipt == Some(pair.1)
  }

  /** The pair with these halves taken from another one. */
  function Towards(pair: Pair, to: Pair, order: seq<Half>): Pair
    decreases order
  {
    if order == [] then pair else Towards(With(pair, order[0], Get(to, order[0])), to, order[1..])
  }

  /** The pairs that one change can have on disk: the old one, the old receipt beside the new manifest, the new one. */
  function Between(before: Pair, after: Pair): set<Pair> {
    {before, (after.0, before.1), after}
  }

  /** The step that replaces one half, if it differs. */
  function PutHalf(pair: Pair, half: Half, data: Bytes): seq<Move> {
    if Get(pair, half) != data then [Put(half, data)] else []
  }

  lemma PutReaches(s: Node, pair: Pair, half: Half, data: Bytes)
    requires Holds(s, pair)
    ensures Holds(Replay(Act, s, PutHalf(pair, half, data)), With(pair, half, data))
    ensures Aside(s, Replay(Act, s, PutHalf(pair, half, data)))
  {
    hide Replay;
    NoSteps(Act, s, 0);
    ReplayOne(Act, s, Put(half, data));
  }

  /** Seal, journal and foreign recoveries are as they were. */
  predicate Aside(before: Node, after: Node) {
    after.seal == before.seal && after.journal == before.journal && after.conflict == before.conflict
  }

  /** At every cut of the loop over the files, the halves replaced so far are those of a part of the order; a loop
      that ends has replaced them all, and recorded the final phase. */
  lemma {:induction false} ShiftCut(w: World, s: Node, deal: Deal, observed: Pair, to: Pair, order: seq<Half>,
      final: Word,
                                    look: Looks, n: nat, fuse: nat) returns (j: nat)
    requires Holds(s, observed)
    ensures j <= |order|
    ensures var a := Shift(w, deal, observed, to, order, final, look, n);
            var t := Replay(Act, s, UpTo(a.steps, fuse));
            && Holds(t, Towards(observed, to, order[..j])) && t.seal == s.seal && t.conflict == s.conflict
            && t.journal in {s.journal, Some(JournalText(w, deal, final))}
            && (a.end.Ok? && fuse >= |a.steps| ==>
                  a.end == Ok(final) && j == |order| && t.journal == Some(JournalText(w, deal, final)))
    decreases order
  {
    hide Replay, Shift, JournalText, Holds, Act;
    ShiftUnfolds(w, deal, observed, to, order, final, look, n);
    NoSteps(Act, s, fuse);
    j := 0;
    assert order[..0] == [];
    if look(n) == deal.proof {
      if order == [] {
        ReplayOne(Act, s, PutJournal(JournalText(w, deal, final)));
        JournalPut(s, observed, JournalText(w, deal, final));
        assert UpTo([PutJournal(JournalText(w, deal, final))], fuse) ==
               if fuse == 0 then [] else [PutJournal(JournalText(w, deal, final))];
      } else {
        var data := Get(to, order[0]);
        var put, next := PutHalf(observed, order[0], data), With(observed, order[0], data);
        var rest := Shift(w, deal, next, to, order[1..], final, look, n + 1);
        PutReaches(s, observed, order[0], data);
        ThenRan(Act, s, fuse, put, rest);
        if fuse >= |put| {
          j := ShiftCut(w, Replay(Act, s, put), deal, next, to, order[1..], final, look, n + 1, fuse - |put|);
          j := j + 1;
          assert order[..j][1..] == order[1..][..j - 1];
        } else {
          assert UpTo(put, fuse) == [];
        }
      }
    }
  }

  lemma JournalPut(s: Node, pair: Pair, text: Bytes)
    requires Holds(s, pair)
    ensures var t := Act(s, PutJournal(text));
            Holds(t, pair) && t.seal == s.seal && t.conflict == s.conflict && t.journal == Some(text)
  {
  }

  /** Every part of the way from one of the three pairs forth to the new one, or back to the old one, is one of the
      three. */
  lemma WaysAreBetween(before: Pair, after: Pair, observed: Pair, j: nat)
    requires observed in Between(before, after) && j <= 2
    ensures Towards(before, after, [ManifestHalf, ReceiptHalf][..j]) in Between(before, after)
    ensures Towards(observed, before, [ReceiptHalf, ManifestHalf][..j]) in Between(before, after)
    ensures Towards(before, after, [ManifestHalf, ReceiptHalf]) == after
    ensures Towards(observed, before, [ReceiptHalf, ManifestHalf]) == before
  {
    Ways(before, after, [ManifestHalf, ReceiptHalf]);
    Ways(observed, before, [ReceiptHalf, ManifestHalf]);
  }

  /** The parts of the way over both halves. */
  lemma Ways(from: Pair, to: Pair, order: seq<Half>)
    requires |order| == 2
    ensures order[..2] == order && Towards(from, to, order[..0]) == from
    ensures Towards(from, to, order[..1]) == With(from, order[0], Get(to, order[0]))
    ensures Towards(from, to, order) == With(With(from, order[0], Get(to, order[0])), order[1], Get(to, order[1]))
  {
    var next := With(from, order[0], Get(to, order[0]));
    assert order[..1][1..] == [] && order[1..][1..] == [] && order[..0] == [];
    assert Towards(from, to, order) == Towards(next, to, order[1..]);
    assert Towards(next, to, order[1..]) == Towards(With(next, order[1], Get(to, order[1])), to, []);
  }

  /** What an operation knows of the node when it is admitted. */
  lemma AdmittedFacts(w: World, s: Node, q: Request, proof: string)
    ensures var admitted := Admit(w, s, q, proof);
            admitted.Ok? ==>
              var t := admitted.value;
              && OpenDeal(w, s, q, proof) == Ok((t.deal, t.phase)) && Holds(s, t.observed)
              && Transition(w, t.deal.before.0, t.deal.before.1, q.binary, q.role) == Ok(t.after)
              && t.observed in Allowed(t.phase, t.deal.before, t.after)
              && Allowed(t.phase, t.deal.before, t.after) <= Between(t.deal.before, t.after)
  {
    hide Transition, OpenDeal;
  }

  /** An installation that writes, cut anywhere. */
  lemma InstallCut(w: World, s: Node, t: Ticket, expected: Option<Handoff>, look: Looks, fuse: nat)
    requires Holds(s, t.observed) && t.observed in Allowed(t.phase, t.deal.before, t.after)
    ensures var a := InstallPair(w, t, expected, look);
            var after := Replay(Act, s, UpTo(a.steps, fuse));
            && after.seal == s.seal && after.conflict == s.conflict
            && (exists pair :: pair in Between(t.deal.before, t.after) && Holds(after, pair))
            && (a.end.Ok? && fuse >= |a.steps| ==>
                  && a.end == Ok(Committed) && Holds(after, t.after)
                  && after.journal == if t.phase == Committed then s.journal
                      else Some(JournalText(w, t.deal, Committed)))
  {
    hide Replay, Shift, JournalText, Holds, Act;
    var a := InstallPair(w, t, expected, look);
    NoSteps(Act, s, fuse);
    assert t.observed in Between(t.deal.before, t.after);
    if a.steps != [] {
      var n := if expected.Some? then 2 else 1;
      var text := JournalText(w, t.deal, Prepared);
      var rest := Shift(w, t.deal, t.observed, t.after, [ManifestHalf, ReceiptHalf], Committed, look, n);
      ThenRan(Act, s, fuse, [PutJournal(text)], rest);
      ReplayOne(Act, s, PutJournal(text));
      JournalPut(s, t.observed, text);
      if fuse >= 1 {
        var j := ShiftCut(w, Act(s, PutJournal(text)), t.deal, t.observed, t.after, [ManifestHalf, ReceiptHalf],
            Committed, look,
                          n, fuse - 1);
        WaysAreBetween(t.deal.before, t.after, t.deal.before, j);
        assert [ManifestHalf, ReceiptHalf][..2] == [ManifestHalf, ReceiptHalf];
      } else {
        assert UpTo([PutJournal(text)], fuse) == [];
      }
    }
  }

  /** A rollback or a recovery that writes, cut anywhere. */
  lemma RestoreCut(w: World, s: Node, t: Ticket, action: Action, look: Looks, fuse: nat)
    requires Holds(s, t.observed) && t.observed in Allowed(t.phase, t.deal.before, t.after)
    ensures var a := RestorePair(w, t, action, look);
            var after := Replay(Act, s, UpTo(a.steps, fuse));
            && after.seal == s.seal && after.conflict == s.conflict
            && (exists pair :: pair in Between(t.deal.before, t.after) && Holds(after, pair))
            && (a.end.Ok? && fuse >= |a.steps| ==>
                  if action == Recover && t.phase == Committed
                      then a.end == Ok(Committed) && after == s && Holds(after, t.after)
                  else && a.end == Ok(Restored) && Holds(after, t.deal.before)
                       && after.journal == if t.phase == Restored then s.journal
                           else Some(JournalText(w, t.deal, Restored)))
  {
    hide Replay, Shift, JournalText, Holds, Act;
    var a := RestorePair(w, t, action, look);
    NoSteps(Act, s, fuse);
    assert t.observed in Between(t.deal.before, t.after);
    if a.steps != [] {
      var text := JournalText(w, t.deal, Restoring);
      var rest := Shift(w, t.deal, t.observed, t.deal.before, [ReceiptHalf, ManifestHalf], Restored, look, 2);
      ThenRan(Act, s, fuse, [PutJournal(text)], rest);
      ReplayOne(Act, s, PutJournal(text));
      JournalPut(s, t.observed, text);
      if fuse >= 1 {
        var j := ShiftCut(w, Act(s, PutJournal(text)), t.deal, t.observed, t.deal.before, [ReceiptHalf, ManifestHalf],
            Restored,
                          look, 2, fuse - 1);
        WaysAreBetween(t.deal.before, t.after, t.observed, j);
        assert [ReceiptHalf, ManifestHalf][..2] == [ReceiptHalf, ManifestHalf];
      } else {
        assert UpTo([PutJournal(text)], fuse) == [];
      }
    }
  }

  /** A step of a cleanup: it concerns journal and seal only. */
  predicate OfEvidence(move: Move) {
    !move.Put?
  }

  lemma {:induction false} EvidenceOnly(s: Node, steps: seq<Move>, k: nat)
    requires k <= |steps| && forall i :: 0 <= i < |steps| ==> OfEvidence(steps[i])
    ensures var t := Replay(Act, s, steps[..k]);
            t.manifest == s.manifest && t.receipt == s.receipt && t.conflict == s.conflict
    decreases k
  {
    hide Replay;
    if k > 0 {
      EvidenceOnly(s, steps, k - 1);
      ReplayNext(Act, s, steps, k - 1);
    } else {
      NoSteps(Act, s, 0);
      assert steps[..0] == [];
    }
  }

  lemma FinishReaches(w: World, s: Node, role: Word, binary: string, proof: string, look: Looks, n: nat)
    ensures var a := Finish(w, s, role, binary, proof, look, n);
            && (forall i :: 0 <= i < |a.steps| ==> OfEvidence(a.steps[i]))
            && (a.end.Ok? ==> a.end == Ok(Restored) && Replay(Act, s, a.steps) == s.(journal := None, seal := None))
  {
    hide CheckFinish, Replay;
    var a := Finish(w, s, role, binary, proof, look, n);
    if a.end.Ok? {
      var first := if s.journal.Some? then [DropJournal] else [];
      assert a.steps == first + [DropSeal];
      ReplayJoin(Act, s, first, [DropSeal]);
      NoSteps(Act, s, 0);
      ReplayOne(Act, s, DropJournal);
      ReplayOne(Act, Replay(Act, s, first), DropSeal);
    }
  }

  lemma CleanUpReaches(w: World, s: Node, t: Ticket, look: Looks)
    ensures var a := CleanUp(w, s, t, look);
            && (forall i :: 0 <= i < |a.steps| ==> OfEvidence(a.steps[i]))
            && (a.end.Ok? ==> a.end == Ok(Restored) && Replay(Act, s, a.steps) == s.(journal := None, seal := None))
  {
    hide Finish, Replay, Act, SealText;
    var a := CleanUp(w, s, t, look);
    if a.steps != [] {
      var seal := PutSeal(SealText(w, t, s.journal.value));
      FinishReaches(w, Act(s, seal), t.deal.role, t.deal.binary, t.deal.proof, look, 2);
      var rest := Finish(w, Act(s, seal), t.deal.role, t.deal.binary, t.deal.proof, look, 2);
      ReplayJoin(Act, s, [seal], rest.steps);
      ReplayOne(Act, s, seal);
      SealAside(s, seal);
    }
  }

  lemma SealAside(s: Node, seal: Move)
    requires seal.PutSeal?
    ensures Act(s, seal).(journal := None, seal := None) == s.(journal := None, seal := None)
  {
  }

  /** On any node, at every cut of every operation: a cleanup leaves the pair as it is; any other operation leaves the
      seal as it is, and the node untouched unless it was admitted for a deal, and then one of the three pairs of that
      deal's one permitted change is on disk. */
  lemma {:induction false} EveryCutIsBetween(w: World, s: Node, q: Request, look: Looks, fuse: nat)
    ensures var t := Replay(Act, s, UpTo(Operate(w, s, q, look).steps, fuse));
            && t.conflict == s.conflict
            && (q.action == Cleanup ==> t.manifest == s.manifest && t.receipt == s.receipt)
            && (q.action != Cleanup ==> t.seal == s.seal)
            && (q.action != Cleanup && t != s ==>
                  exists deal: Deal, phase: Word, after: Pair, pair: Pair ::
                    && OpenDeal(w, s, q, look(0)) == Ok((deal, phase))
                    && Transition(w, deal.before.0, deal.before.1, q.binary, q.role) == Ok(after)
                    && pair in Between(deal.before, after) && Holds(t, pair))
  {
    hide Transition, OpenDeal, Admit, InstallPair, RestorePair, CleanUp, Finish, Replay, Act, Holds, Between;
    var steps := Operate(w, s, q, look).steps;
    NoSteps(Act, s, fuse);
    if Precheck(s, q, look).Ok? {
      if s.seal.Some? {
        if q.action == Cleanup {
          FinishReaches(w, s, q.role, q.binary, look(0), look, 1);
          EvidenceCut(s, steps, fuse);
        }
      } else {
        AdmittedFacts(w, s, q, look(0));
        var admitted := Admit(w, s, q, look(0));
        if admitted.Ok? {
          var t := admitted.value;
          match q.action
          case Cleanup =>
            CleanUpReaches(w, s, t, look);
            EvidenceCut(s, steps, fuse);
          case Install => InstallCut(w, s, t, q.expected, look, fuse);
          case _ => RestoreCut(w, s, t, q.action, look, fuse);
        }
      }
    }
  }

  lemma EvidenceCut(s: Node, steps: seq<Move>, fuse: nat)
    requires forall i :: 0 <= i < |steps| ==> OfEvidence(steps[i])
    ensures var t := Replay(Act, s, UpTo(steps, fuse));
            t.manifest == s.manifest && t.receipt == s.receipt && t.conflict == s.conflict
  {
    EvidenceOnly(s, steps, |UpTo(steps, fuse)|);
    assert steps[..|UpTo(steps, fuse)|] == UpTo(steps, fuse);
  }

  /** On any node, an operation that returns and is not cut has done exactly this.  A cleanup: journal and seal are
      gone, nothing else has changed.  An installation: the pair is the one permitted change of the deal's originals,
      and the journal says committed.  A rollback: the pair is the originals read from the journal, and the journal
      says restored.  A recovery does nothing to a committed change and is a rollback otherwise. */
  lemma {:induction false} OperationIsExact(w: World, s: Node, q: Request, look: Looks)
    requires Operate(w, s, q, look).end.Ok?
    ensures var answer, t := Operate(w, s, q, look).end.value, Replay(Act, s, Operate(w, s, q, look).steps);
            if q.action == Cleanup then answer == Restored && t == s.(journal := None, seal := None)
            else
              && s.seal.None? && t.seal.None? && Admit(w, s, q, look(0)).Ok?
              && var ticket := Admit(w, s, q, look(0)).value;
              && OpenDeal(w, s, q, look(0)) == Ok((ticket.deal, ticket.phase))
              && Transition(w, ticket.deal.before.0, ticket.deal.before.1, q.binary, q.role) == Ok(ticket.after)
              && answer == (if q.action == Install || (q.action == Recover && ticket.phase == Committed)
                            then Committed else Restored)
              && Holds(t, if answer == Committed then ticket.after else ticket.deal.before)
              && t.journal == if ticket.phase == answer then s.journal else Some(JournalText(w, ticket.deal, answer))
  {
    hide Transition, OpenDeal, Admit, InstallPair, RestorePair, CleanUp, Finish, Replay, Act, Holds, JournalText,
         Between;
    var a := Operate(w, s, q, look);
    if s.seal.Some? {
      FinishReaches(w, s, q.role, q.binary, look(0), look, 1);
    } else {
      AdmittedFacts(w, s, q, look(0));
      var t := Admit(w, s, q, look(0)).value;
      match q.action
      case Cleanup => CleanUpReaches(w, s, t, look);
      case Install => InstallCut(w, s, t, q.expected, look, |a.steps|);
      case _ => RestoreCut(w, s, t, q.action, look, |a.steps|);
    }
  }
}
