/** An event of one call changes the rows, mail and history of that call's sequence only. */
module StepQueueFrame {
  import opened Wrappers
  import opened StepQueueModel
  import opened StepQueueTally
  import opened StepQueueInvariant

  /** Rows of other sequences, other calls, and everything that never changes stay as they were. */
  ghost predicate Local(s: State, s2: State, w: SequenceId, c: CallId)
  {
    && s.created <= s2.created
    && (forall id :: id in s.steps ==>
          && id in s2.steps
          && s2.steps[id].workerId == s.steps[id].workerId
          && s2.steps[id].stepNumber == s.steps[id].stepNumber
          && (s.steps[id].jobId.Some? ==> s2.steps[id].jobId.Some?)
          && (s.steps[id].workerId != w ==> s2.steps[id] == s.steps[id]))
    && (forall j :: j in s.jobs ==> j in s2.jobs && s2.jobs[j].stepId == s.jobs[j].stepId)
    && (forall d :: d in s.calls && d != c ==> d in s2.calls && s2.calls[d] == s.calls[d])
    && (forall d :: d in s2.calls && d != c ==> d in s.calls)
    && (s2.log == s.log || (|s2.log| == |s.log| + 1 && s2.log[..|s.log|] == s.log && s2.log[|s.log|].workerId == w))
  }

  lemma LogElsewhere(s: State, s2: State, w: SequenceId, c: CallId, w': SequenceId)
    requires Local(s, s2, w, c) && w' != w
    ensures TallyOf(s2.log, w') == TallyOf(s.log, w')
    ensures Orderly(s2.log, w') == Orderly(s.log, w')
  {
    if s2.log != s.log {
      assert s2.log == s.log + [s2.log[|s.log|]];
      TallyOfNote(s.log, s2.log[|s.log|], w');
    }
  }

  lemma ElsewhereKept(s: State, s2: State, w: SequenceId, c: CallId, w': SequenceId, ids: seq<StepId>, seat: Seat)
    requires Local(s, s2, w, c) && w' != w
    requires SequenceOk(s, w', ids, seat)
    requires c in s.calls ==> s.calls[c].workerId == w
    requires seat.Mail? ==> seat.message in s2.queue
    ensures SequenceOk(s2, w', ids, seat)
  {
    hide StageOk;
    hide FreeOk;
    hide MailOk;
    LogElsewhere(s, s2, w, c, w');
    forall i | 0 <= i < |ids|
      ensures ids[i] in s2.steps && s2.steps[ids[i]] == s.steps[ids[i]]
    {
      assert RowAt(s, ids, w', i);
    }
    forall i | 0 <= i < |ids|
      ensures RowAt(s2, ids, w', i)
    {
      assert RowAt(s, ids, w', i);
    }
    assert RowsOf(s2.steps, ids) == RowsOf(s.steps, ids);
  }

  /** Every row of `w` is one of `ids2`, in its place; rows of other sequences are not new. */
  ghost predicate RowsHome(s: State, s2: State, w: SequenceId, ids2: seq<StepId>)
  {
    && (forall id {:trigger Placed(s2.steps, ids2, id)} :: id in s2.steps && s2.steps[id].workerId == w ==>
          Placed(s2.steps, ids2, id))
    && (forall id :: id in s2.steps && s2.steps[id].workerId != w ==> id in s.steps)
  }

  ghost predicate CallHome(s2: State, w: SequenceId, c: CallId, seat2: Seat)
  {
    c in s2.calls ==>
      && s2.calls[c].workerId == w
      && (Token(s2.calls[c].stage) ==> seat2 == Held(c))
      && PapersOk(s2, s2.calls[c])
  }

  /** Mail of `w` is single and holds the seat; mail of other sequences is not new and not lost. */
  ghost predicate MailHome(s: State, s2: State, w: SequenceId, seat2: Seat)
  {
    && (forall m :: m in s2.queue ==>
          && m.stepId in s2.steps
          && if s2.steps[m.stepId].workerId == w then s2.queue[m] == 1 && seat2 == Mail(m)
             else m in s.queue && s2.queue[m] == s.queue[m])
    && (forall m :: m in s.queue && m.stepId in s2.steps && s2.steps[m.stepId].workerId != w ==> m in s2.queue)
  }

  lemma RowsKept(s: State, b: Book, s2: State, b2: Book, w: SequenceId, c: CallId)
    requires Inv(s, b) && Local(s, s2, w, c) && w in b2.order && RowsHome(s, s2, w, b2.order[w])
    requires forall w' :: w' in b.order && w' != w ==> w' in b2.order && b2.order[w'] == b.order[w']
    ensures RowsBelong(s2, b2)
  {
    forall id | id in s2.steps
      ensures Belongs(s2.steps, b2, id)
    {
      var v := s2.steps[id].workerId;
      if v == w {
        assert Placed(s2.steps, b2.order[w], id);
      } else {
        assert Belongs(s.steps, b, id);
      }
    }
  }

  lemma CallsKept(s: State, b: Book, s2: State, b2: Book, w: SequenceId, c: CallId)
    requires Inv(s, b) && Local(s, s2, w, c) && w in b2.seat && CallHome(s2, w, c, b2.seat[w])
    requires forall w' :: w' in b.seat && w' != w ==> w' in b2.seat && b2.seat[w'] == b.seat[w']
    requires w in b.seat && b.seat[w].Held? ==> b.seat[w].call == c || b2.seat[w] == b.seat[w]
    ensures CallsSeated(s2, b2)
  {
    forall d | d in s2.calls
      ensures s2.calls[d].workerId in b2.seat
      ensures Token(s2.calls[d].stage) ==> b2.seat[s2.calls[d].workerId] == Held(d)
      ensures PapersOk(s2, s2.calls[d])
    {
      if d != c {
        assert d in s.calls && s2.calls[d] == s.calls[d] && PapersOk(s, s.calls[d]);
      }
    }
  }

  lemma MailKept(s: State, b: Book, s2: State, b2: Book, w: SequenceId, c: CallId)
    requires Inv(s, b) && Local(s, s2, w, c) && w in b2.seat && MailHome(s, s2, w, b2.seat[w])
    requires forall w' :: w' in b.seat && w' != w ==> w' in b2.seat && b2.seat[w'] == b.seat[w']
    ensures MailSeated(s2, b2)
  {
  }

  lemma MailOwned(s: State, w: SequenceId, ids: seq<StepId>, m: Message)
    requires SequenceOk(s, w, ids, Mail(m))
    ensures m in s.queue && m.stepId in s.steps && s.steps[m.stepId].workerId == w
  {
    assert RowAt(s, ids, w, Cursor(TallyOf(s.log, w)));
  }

  lemma SequencesKept(s: State, b: Book, s2: State, b2: Book, w: SequenceId, c: CallId)
    requires Inv(s, b) && Local(s, s2, w, c) && w in b2.seat && MailHome(s, s2, w, b2.seat[w])
    requires b2.order.Keys == b2.seat.Keys == s2.created == s.created + {w}
    requires BookedOk(s2, b2, w)
    requires c in s.calls ==> s.calls[c].workerId == w
    requires forall w' :: w' in b.order && w' != w ==> w' in b2.order && b2.order[w'] == b.order[w']
    requires forall w' :: w' in b.seat && w' != w ==> w' in b2.seat && b2.seat[w'] == b.seat[w']
    ensures SequencesOk(s2, b2)
  {
    hide SequenceOk;
    forall w' | w' in s.created && w' != w
      ensures BookedOk(s2, b2, w')
    {
      assert BookedOk(s, b, w');
      if b.seat[w'].Mail? {
        var m := b.seat[w'].message;
        MailOwned(s, w', b.order[w'], m);
      }
      ElsewhereKept(s, s2, w, c, w', b.order[w'], b.seat[w']);
    }
  }

  /**
   * The new state satisfies the invariant once the sequence touched does, and once the call, the mail
   * and the rows of that sequence are accounted for.
   */
  lemma Assemble(s: State, b: Book, s2: State, w: SequenceId, c: CallId, ids2: seq<StepId>, seat2: Seat)
    requires Inv(s, b) && Local(s, s2, w, c)
    requires s2.created == s.created + {w}
    requires c in s.calls ==> s.calls[c].workerId == w
    requires SequenceOk(s2, w, ids2, seat2)
    requires RowsHome(s, s2, w, ids2) && CallHome(s2, w, c, seat2) && MailHome(s, s2, w, seat2)
    requires w in b.seat && b.seat[w].Held? ==> b.seat[w].call == c || seat2 == b.seat[w]
    requires JobsDated(s2)
    ensures Inv(s2, Book(b.order[w := ids2], b.seat[w := seat2]))
  {
    hide SequenceOk;
    var b2 := Book(b.order[w := ids2], b.seat[w := seat2]);
    RowsKept(s, b, s2, b2, w, c);
    CallsKept(s, b, s2, b2, w, c);
    MailKept(s, b, s2, b2, w, c);
    assert BookedOk(s2, b2, w);
    SequencesKept(s, b, s2, b2, w, c);
    assert LogKnown(s2);
  }

  /** The common case: no rows and no mail come or go, and the call stays or leaves as its seat says. */
  ghost predicate Quiet(s: State, s2: State, w: SequenceId, c: CallId, seat2: Seat)
  {
    && Local(s, s2, w, c)
    && s2.created == s.created && s2.steps.Keys == s.steps.Keys && s2.queue == s.queue
    && c in s.calls && s.calls[c].workerId == w
    && CallHome(s2, w, c, seat2)
    && JobsDated(s2)
  }

  lemma AssembleQuiet(s: State, b: Book, s2: State, w: SequenceId, c: CallId, seat2: Seat)
    requires Inv(s, b) && Quiet(s, s2, w, c, seat2)
    requires w in b.order && w in b.seat && SequenceOk(s2, w, b.order[w], seat2)
    requires Token(s.calls[c].stage) || seat2 == b.seat[w]
    ensures Inv(s2, Book(b.order[w := b.order[w]], b.seat[w := seat2]))
  {
    hide SequenceOk;
    forall id | id in s2.steps && s2.steps[id].workerId == w
      ensures Placed(s2.steps, b.order[w], id)
    {
      assert Belongs(s.steps, b, id);
    }
    assert MailHome(s, s2, w, seat2) by {
      forall m | m in s2.queue && s2.steps[m.stepId].workerId == w
        ensures s2.queue[m] == 1 && seat2 == Mail(m)
      {
        assert b.seat[w] == Mail(m);
      }
    }
    Assemble(s, b, s2, w, c, b.order[w], seat2);
  }
}
