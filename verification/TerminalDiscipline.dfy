// Terminal discipline: between two messages at most one terminal event.  When it holds of a native log,
// how a session's provisioning decides it, and a log that breaks it.
module TerminalDiscipline {
  import opened Prelude
  import opened Events
  import opened Reducer
  import opened Conversation
  import opened NativeProtocol
  import S = Sessions
  import F = SessionFates
  import R = RedeliveredTurn

  // Every terminal event is followed by a message, if by anything.
  ghost predicate Disciplined(log: Log) {
    forall i :: 0 <= i && i + 1 < |log| && IsTerminal(log[i].payload) ==> log[i + 1].payload.UserMessage?
  }

  // Terminal discipline holds exactly when the provisioner never writes right behind a terminal event: the
  // reducer lets no turn write there.
  lemma TerminalDisciplineIff(c: Config, log: Log, external: seq<bool>)
    requires Prescribed(c, log, external)
    ensures Disciplined(log) <==>
      forall i :: 0 <= i && i + 1 < |log| && IsTerminal(log[i].payload) ==> !IsProvisioning(log, external, i + 1)
  {
    forall i | 0 <= i && i + 1 < |log| && IsTerminal(log[i].payload) ensures external[i + 1] {
      assert PrescribedAt(c, log, external, i + 1);
      assert log[..i + 1][i] == log[i];
    }
  }

  lemma OneProvisioningIsDisciplined(c: Config, log: Log, external: seq<bool>)
    requires Prescribed(c, log, external) && ProvisionedOnceFirst(log, external)
    ensures Disciplined(log)
  {
    forall i | 0 <= i && i + 1 < |log| && IsTerminal(log[i].payload) ensures !IsProvisioning(log, external, i + 1) {
      assert PrescribedAt(c, log, external, i);
      assert external[i] ==> IsProvisioning(log, external, i);
    }
    TerminalDisciplineIff(c, log, external);
  }

  // On a session whose closes each found nothing but messages, a user message separates any two terminal
  // events of a native log.
  lemma OneTerminalPerTurn(c: Config, run: seq<S.State>, steps: seq<S.Step>, n: nat, i: nat, j: nat)
    requires S.IsRun(run, steps) && n < |run| && F.FirstCloses(run, steps, n)
    requires Prescribed(c, run[n].log, run[n].external)
    requires i < j < |run[n].log| && IsTerminal(run[n].log[i].payload) && IsTerminal(run[n].log[j].payload)
    ensures exists k :: i < k < j && run[n].log[k].payload.UserMessage?
  {
    F.ProvisionedOnceIff(run, steps, n);
    OneProvisioningIsDisciplined(c, run[n].log, run[n].external);
    assert run[n].log[i + 1].payload.UserMessage?;
  }

  // From its creation on any session can come to break it: a second provisioning lands after the turn
  // ended, the redelivered turn ends again, and no message stands between the two terminal events.
  lemma TwoTerminals(c: Config, s: S.State, words: seq<string>, reply: string)
    requires S.IsInit(s) && c.maxIterations >= 1
    requires c.replyOk([SystemText(c.systemPrompt), UserText(PlainText(words))], Reply(reply, None))
    ensures exists s' :: F.LeadsTo(s, s') && Prescribed(c, s'.log, s'.external) && !Disciplined(s'.log)
  {
    var s' := R.TurnEndsTwice(s, words, ReplyPayload(Reply(reply, None)));
    EndsTwiceIsPrescribed(c, words, reply);
  }

  lemma EndsTwiceIsPrescribed(c: Config, words: seq<string>, reply: string)
    requires c.maxIterations >= 1
    requires c.replyOk([SystemText(c.systemPrompt), UserText(PlainText(words))], Reply(reply, None))
    ensures var log := R.EndsTwice(words, ReplyPayload(Reply(reply, None)));
      Prescribed(c, log, [true, true, false, false, true, false]) && !Disciplined(log)
  {
    var log := R.EndsTwice(words, ReplyPayload(Reply(reply, None)));
    var external := [true, true, false, false, true, false];
    assert log[..1] == [log[0]] && log[..2] == [log[0], log[1]] && log[..3] == [log[0], log[1], log[2]];
    assert log[..4] == log[..3] + [log[3]] && log[..5] == log[..4] + [log[4]];
    AskedAfterTwo(c, log[..2], words);
    assert Prescribes(c, log[..2], log[2].payload, false);
    AnsweredFinishes(log[..3], c.maxIterations, reply);
    AnsweredFinishes(log[..5], c.maxIterations, reply);
    forall k | 0 <= k < 6 ensures PrescribedAt(c, log, external, k) {
      assert k == 0 || k == 1 || k == 2 || k == 3 || k == 4 || k == 5;
    }
    assert IsTerminal(log[3].payload) && !log[3 + 1].payload.UserMessage?;
  }

  lemma AskedAfterTwo(c: Config, log: Log, words: seq<string>)
    requires log == [Event(1, UserMessage(words)), Event(2, SessionProvisioned)]
    ensures NextAction(log, c.maxIterations) == Infer
    ensures Context(log, c.systemPrompt) == [SystemText(c.systemPrompt), UserText(PlainText(words))]
  {
    assert log[..1] == [log[0]] && log[..1][..0] == [];
    assert LastIndex(log[..1], User) == 0 && LastIndex(log, User) == 0;
    assert LastIndex([], Assistant) == -1 && LastIndex(log[..1], Assistant) == -1;
    assert Context([], c.systemPrompt) == [SystemText(c.systemPrompt)];
    assert Context(log[..1], c.systemPrompt) == [SystemText(c.systemPrompt), UserText(PlainText(words))];
  }

  lemma AnsweredFinishes(log: Log, maxIterations: nat, reply: string)
    requires |log| >= 3 && log[2].payload == AssistantMessage(TextContent(reply), [])
    requires forall k :: 3 <= k < |log| ==> !log[k].payload.AssistantMessage? && !log[k].payload.UserMessage?
    requires !IsTerminal(log[|log| - 1].payload)
    ensures NextAction(log, maxIterations) == Finish
  {
    assert KindOf(log[2].payload) == Assistant;
    assert LastIndex(log, Assistant) == 2 && LastIndex(log, User) <= 2;
    assert KindOf(log[LastIndex(log, Assistant)].payload) != User;
  }
}
