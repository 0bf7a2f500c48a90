/** When a command makes the daemon throw, and that it can happen: the schemas of the events are checked
    inside the transaction (packages/core/src/event-store.ts:90-107), the state after each event outside
    it (packages/core/src/controller.ts:64-80). */
module Throws {
  import opened Protocol
  import opened Domain
  import opened Evidence
  import opened Decisions
  import opened Invariants
  import opened Progress
  import opened Controller

  /** From every reachable state a new command throws in exactly two cases: it cancels a task with an
      open question, which is then already stored, or it is an internal signal that does not meet the
      schemas and comes while its task is at work in the way it expects, and then nothing is stored. */
  lemma ReachableCommandThrowsExactlyWhen(sys: Sys, id: Id, ids: FreshIds, sig: Signal)
    requires Reachable(sys) && Fresh(sys.mem, ids) && id !in sys.store.commands && !RefusedUnrecorded(sys.mem, sig)
    ensures var refused := Malformed(sig) && Applicable(sys.mem, sys.rows, sig);
            var outcome := Handle(sys, id, ids, sig);
            && (outcome.Thrown? <==> refused || CancelsOpenQuestion(sys.mem, sig))
            && (refused ==> outcome.sys == sys)
            && (outcome.Returned? ==> Reachable(outcome.sys))
  {
    hide Inv, Settled, Justified, Decide, Handle, Malformed, Applicable, CancelsOpenQuestion, RefusedUnrecorded, Fresh;
    ReachableIsOk(sys);
    hide Reachable;
    CommandThrowsExactlyWhen(sys, id, ids, sig);
    if Handle(sys, id, ids, sig).Returned? {
      ReachableExtends(sys, Signalled(id, ids, sig));
    }
  }

  /** From every reachable state with a running task: once a success without changes is recorded, citing
      it once completes the task and citing it twice throws, with nothing stored. */
  lemma RepeatedCitationThrows(sys: Sys, a: Artifact, id: Id, ids: FreshIds, t: Id, summary: string)
    requires Reachable(sys) && t in sys.mem.tasks && sys.mem.tasks[t].state == Running && summary != ""
    requires ValidTable(sys.rows + [a]) && a.taskId == t && sys.mem.tasks[t].activeRunId == Some(a.runId)
    requires a.successful && a.kind != FileChange
    requires Fresh(sys.mem, ids) && id !in sys.store.commands
    ensures var later := sys.(rows := sys.rows + [a]);
            var once := Handle(later, id, ids, Complete(t, summary, [a.id]));
            && Reachable(later)
            && Handle(later, id, ids, Complete(t, summary, [a.id, a.id])) == Thrown(later)
            && once.Returned? && once.result == Accepted(t)
  {
    hide Inv, Settled, Justified, Handle, Reachable, Fresh, ValidateCompletion;
    var later := sys.(rows := sys.rows + [a]);
    ReachableExtends(sys, Recorded(a));
    SuccessJustifies(sys.rows, a, [a.id]);
    SuccessJustifies(sys.rows, a, [a.id, a.id]);
    assert !NoDuplicates([a.id, a.id]) by { assert [a.id, a.id][0] == [a.id, a.id][1]; }
    ReachableCommandThrowsExactlyWhen(later, id, ids, Complete(t, summary, [a.id]));
    ReachableCommandThrowsExactlyWhen(later, id, ids, Complete(t, summary, [a.id, a.id]));
    AtWorkOwns(later, t);
    CompletionAccepted(later, id, ids, t, summary, [a.id]);
  }

  lemma AtWorkOwns(sys: Sys, t: Id)
    requires Reachable(sys) && t in sys.mem.tasks && sys.mem.tasks[t].state == Running
    ensures sys.mem.active == Some(t) && sys.mem.tasks[t].activeRunId.Some? && ValidTable(sys.rows)
  {
    hide Inv, Settled, Justified, Reachable;
    ReachableIsOk(sys);
    ExecutingOwns(sys.mem, t);
  }

  lemma SuccessJustifies(rows: seq<Artifact>, a: Artifact, ids: seq<Id>)
    requires ids != [] && forall id :: id in ids ==> id == a.id
    requires ValidTable(rows + [a]) && a.successful && a.kind != FileChange
    ensures Justified(rows + [a], a.taskId, a.runId, ids)
  {
    var all := rows + [a];
    assert all[|rows|] == a && a in all;
    assert ids[0] in ids;
    assert a in CitedRows(all, ids);
    forall e | e in CitedRows(all, ids)
      ensures e == a
    {
      var i :| 0 <= i < |all| && all[i] == e;
      assert e.id == a.id;
    }
  }

  lemma CompletionAccepted(sys: Sys, id: Id, ids: FreshIds, t: Id, summary: string, evidenceIds: seq<Id>)
    requires t in sys.mem.tasks && sys.mem.tasks[t].state == Running && sys.mem.active == Some(t)
    requires sys.mem.tasks[t].activeRunId.Some? && ValidTable(sys.rows) && id !in sys.store.commands
    requires Justified(sys.rows, t, sys.mem.tasks[t].activeRunId.value, evidenceIds)
    requires Handle(sys, id, ids, Complete(t, summary, evidenceIds)).Returned?
    ensures Handle(sys, id, ids, Complete(t, summary, evidenceIds)).result == Accepted(t)
  {
    hide Justified, ValidateCompletion, ApplyAll, StartNext;
    GateMeaning(sys.rows, t, sys.mem.tasks[t].activeRunId.value, evidenceIds);
  }

  /** From every reachable state with a running task, an empty question, failure, session id or artifact
      summary of it throws, with nothing stored. */
  lemma EmptyTextThrows(sys: Sys, id: Id, ids: FreshIds, t: Id, artifact: Id, r: Id)
    requires Reachable(sys) && t in sys.mem.tasks && sys.mem.tasks[t].state == Running
    requires sys.mem.tasks[t].activeRunId == Some(r) && Fresh(sys.mem, ids) && id !in sys.store.commands
    ensures Handle(sys, id, ids, AskQuestion(t, "")) == Thrown(sys)
    ensures Handle(sys, id, ids, Fail(t, "")) == Thrown(sys)
    ensures Handle(sys, id, ids, BindSession(t, r, "", None)) == Thrown(sys)
    ensures Handle(sys, id, ids, RecordArtifact(t, artifact, r, "")) == Thrown(sys)
  {
    hide Reachable, Fresh, Handle, Justified;
    ReachableCommandThrowsExactlyWhen(sys, id, ids, AskQuestion(t, ""));
    ReachableCommandThrowsExactlyWhen(sys, id, ids, Fail(t, ""));
    ReachableCommandThrowsExactlyWhen(sys, id, ids, BindSession(t, r, "", None));
    ReachableCommandThrowsExactlyWhen(sys, id, ids, RecordArtifact(t, artifact, r, ""));
  }

  /** A fingerprint is sixty-four of the sixteen lower-case hexadecimal digits. */
  lemma FingerprintsAre(f: string)
    ensures IsFingerprint(f) <==> |f| == 64 && forall c :: c in f ==> c in "0123456789abcdef"
  {
    forall c: char ensures LowerHex(c) <==> c in "0123456789abcdef" { DigitsAre(c); }
    assert (forall c :: c in f ==> LowerHex(c)) <==> forall i :: 0 <= i < |f| ==> LowerHex(f[i]);
  }

  lemma DigitsAre(c: char)
    ensures LowerHex(c) <==> c in "0123456789abcdef"
  {
    var digits := "0123456789abcdef";
    if '0' <= c <= '9' {
      assert digits[c as int - '0' as int] == c;
    } else if 'a' <= c <= 'f' {
      assert digits[10 + c as int - 'a' as int] == c;
    }
  }

  /** In every reachable state a call of a running task throws, with nothing stored, exactly when its
      fingerprint is not sixty-four of these digits or one of its texts is empty. */
  lemma CallThrowsExactlyWhen(sys: Sys, id: Id, ids: FreshIds, t: Id, tier: PolicyTier, f: string, labels: Labels)
    requires Reachable(sys) && Fresh(sys.mem, ids) && id !in sys.store.commands
    requires t in sys.mem.tasks && sys.mem.tasks[t].state == Running
    ensures var out := Handle(sys, id, ids, Authorize(t, tier, f, labels));
      var malformed := |f| != 64 || (exists c :: c in f && c !in "0123456789abcdef")
                       || "" in [labels.category, labels.summary, labels.toolName];
      && (out.Thrown? <==> malformed)
      && (malformed ==> out == Thrown(sys))
  {
    hide Reachable, Fresh, Handle, Justified, IsFingerprint;
    ReachableCommandThrowsExactlyWhen(sys, id, ids, Authorize(t, tier, f, labels));
    FingerprintsAre(f);
  }
}
