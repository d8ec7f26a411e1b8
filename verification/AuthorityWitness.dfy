// Two concrete runs of the authority repository, from the empty database, that show
// what it does not promise.
module AuthorityWitness {
  import opened Common
  import opened ReceiptClaims
  import opened AuthorityRuns
  import B = AuthorityBindings
  import E = AuthorityEffects
  import O = Outbox

  function Fill(c: char, n: nat): string { seq(n, _ => c) }
  function Zeros(): string { Fill('0', 64) }
  function Lets(): string { "sha256:" + Zeros() }

  // Nothing is asked of the hashes but that the payload's digest is one.
  predicate HashOk(hs: Hashes) { IsSha256(hs.sha256([0])) }

  function Remote(): B.Remote { B.Remote("w", "w", "w", "w") }

  function Binding(): B.Binding {
    B.Binding("w", "w", "w", "w", 1, B.ServerDynamic, "w", "w", Remote(), Lets(), Lets(), 1, ["w"], 0, 10, B.Active,
              0, 0, 0)
  }

  // Everything that belongs to the effect, receipt and audience called `c`.
  predicate Letter(c: char) { c == 'a' || c == 'b' }

  function Intent(c: char): E.Intent {
    E.Intent([c], "w", "w", "w", "w", E.Read, "w", "w", [c], Fill(c, 16), Zeros(), 0, "w")
  }
  function Effect(c: char, status: E.Status, version: nat): E.Effect {
    E.Effect(Intent(c), status, Some([c]), Some(Fill(c, 64)), None,
             if status == E.FailedClosed then Some("w") else None, 0, 0, version)
  }
  function ClaimOf(c: char): Claim {
    Claim([c], [c], "w", "w", "w", "w", Remote(), Lets(), Lets(), 1, [c], "w", Fill(c, 16), 1, None, 0, 1, 0,
          Fill(c, 64), Anchor([c], "w", "w", 1, Zeros(), Zeros(), 1, Zeros(), 1, Zeros(), Some(0), 0))
  }
  function Req(hs: Hashes, c: char): Request {
    Request(ClaimOf(c), Watermark("w", "w", [c], 1, 0, 1, 0), Effect(c, E.ReceiptClaimed, 1),
            O.Entry([c], "t", [0], hs.sha256([0]), [c], 0))
  }

  lemma LetsIsDigest()
    ensures B.IsLetsDigest(Lets())
  {
    assert Lets()[7..] == Zeros();
  }

  lemma BindingIsWellFormed(hs: Hashes)
    ensures B.WellFormed(hs.pending, Binding())
  {
    LetsIsDigest();
    assert IsIdentifier("w");
  }

  lemma EffectIsWellFormed(c: char, status: E.Status, version: nat)
    requires Letter(c) && status in {E.ReceiptReceived, E.ReceiptClaimed, E.FailedClosed}
    ensures E.WellFormed(Effect(c, status, version))
  {
    assert IsIdentifier("w") && IsIdentifier([c]);
    assert E.IsNonce(Fill(c, 16));
  }

  lemma RequestIsOk(hs: Hashes, c: char)
    requires Letter(c)
    ensures RequestOk(Req(hs, c))
  {
    LetsIsDigest();
    EffectIsWellFormed(c, E.ReceiptClaimed, 1);
    assert IsIdentifier("w") && IsIdentifier([c]) && IsIdentifier(Fill(c, 16));
  }

  lemma EntryIsValid(hs: Hashes, c: char)
    requires HashOk(hs)
    requires Letter(c)
    ensures O.ValidEntry(hs.sha256, Req(hs, c).entry) && O.Normalized(Req(hs, c).entry) == Req(hs, c).entry
  {
    var e, d := Req(hs, c).entry, hs.sha256([0]);
    forall i | 0 <= i < |d| ensures O.LowerChar(d[i]) == d[i] { assert d[i] in d; }
    assert O.Normalized(e).payloadSha256 == d;
    assert O.SafeId([c]) && O.SafeTopic("t");
  }

  lemma CreateBindingStep(hs: Hashes)
    ensures StepsTo(hs, Empty(), BindingCall(B.Create(Binding(), "")), false,
                    Empty().(bindings := map["w" := Binding()]))
  {
    BindingIsWellFormed(hs);
  }

  lemma CreateEffectStep(hs: Hashes, db: Db, c: char)
    requires Letter(c) && db.bindings == map["w" := Binding()] && [c] !in db.effects
    requires forall id <- db.effects :: db.effects[id].intent.audience != [c] && db.effects[id].receiptId != Some([c])
    ensures StepsTo(hs, db, EffectCall(E.Create(Effect(c, E.ReceiptReceived, 0), "")), false,
                    db.(effects := db.effects[[c] := Effect(c, E.ReceiptReceived, 0)]))
  {
    EffectIsWellFormed(c, E.ReceiptReceived, 0);
  }

  lemma RelationsHold(hs: Hashes, db: Db, c: char)
    requires Letter(c) && db.bindings == map["w" := Binding()]
    requires [c] in db.effects && db.effects[[c]] == Effect(c, E.ReceiptReceived, 0)
    ensures Located(db, ClaimOf(c))
    ensures NewTransitionOk(db.effects[[c]], Req(hs, c).effect, ClaimOf(c))
            && WatermarkRepresents(Req(hs, c).watermark, ClaimOf(c))
  {
    assert "w" in Binding().capabilities;
  }

  lemma EntryGoesIn(hs: Hashes, outbox: O.Table, c: char)
    requires HashOk(hs)
    requires Letter(c) && [c] !in outbox && !O.KeyTaken(outbox, [c])
    ensures O.Step(hs.sha256, outbox, O.Enqueue(Req(hs, c).entry))
         == (outbox[[c] := O.Row(Req(hs, c).entry, O.Pending, 0, None, None, 0, None)], O.Inserted)
  {
    EntryIsValid(hs, c);
  }

  // The claim called `c` goes through wherever nothing of it is stored yet.
  lemma ClaimGoesThrough(hs: Hashes, db: Db, c: char)
    requires HashOk(hs)
    requires Letter(c) && db.bindings == map["w" := Binding()]
    requires [c] in db.effects && db.effects[[c]] == Effect(c, E.ReceiptReceived, 0)
    requires forall id <- db.effects :: id != [c] ==> db.effects[id].receiptId != Some([c])
    requires forall id <- db.claims :: !Clashes(db.claims[id], ClaimOf(c))
    requires KeyOf(ClaimOf(c)) !in db.watermarks && [c] !in db.outbox && !O.KeyTaken(db.outbox, [c])
    ensures Acceptable(hs, db, Req(hs, c))
  {
    RelationsHold(hs, db, c);
    EntryGoesIn(hs, db.outbox, c);
  }

  lemma ClaimStep(hs: Hashes, db: Db, c: char)
    requires Letter(c) && Acceptable(hs, db, Req(hs, c))
    ensures StepsTo(hs, db, ClaimCall(Req(hs, c)), true, AfterAccept(hs, db, Req(hs, c)))
  {
    RequestIsOk(hs, c);
  }

  lemma FailClosedStep(hs: Hashes, db: Db, c: char)
    requires Letter(c) && [c] in db.effects && db.effects[[c]] == Effect(c, E.ReceiptClaimed, 1)
    requires forall id <- db.effects :: id != [c] ==> db.effects[id].receiptId != Some([c])
    ensures StepsTo(hs, db, EffectCall(E.Transition(Effect(c, E.FailedClosed, 2), E.ReceiptClaimed, 1)), false,
                    db.(effects := db.effects[[c] := Effect(c, E.FailedClosed, 2)]))
  {
    EffectIsWellFormed(c, E.FailedClosed, 2);
  }

  // ---- runs, one event at a time ----

  function Empty(): Db { Db(map[], map[], map[], map[], map[]) }

  // The binding and the effect called `a`, ready to be claimed.
  lemma PreparedRun(hs: Hashes) returns (h: History)
    ensures Run(hs, h) && |h.events| == 2 && h.states[0] == Empty()
    ensures h.states[2] == Empty().(bindings := map["w" := Binding()],
                                    effects := map[['a'] := Effect('a', E.ReceiptReceived, 0)])
  {
    h := History([Empty()], [], []);
    CreateBindingStep(hs);
    var db1 := Empty().(bindings := map["w" := Binding()]);
    RunGoesOn(hs, h, BindingCall(B.Create(Binding(), "")), false, db1);
    h := Longer(h, BindingCall(B.Create(Binding(), "")), false, db1);
    CreateEffectStep(hs, db1, 'a');
    var e, db2 := EffectCall(E.Create(Effect('a', E.ReceiptReceived, 0), "")),
                  db1.(effects := map[['a'] := Effect('a', E.ReceiptReceived, 0)]);
    RunGoesOn(hs, h, e, false, db2);
    h := Longer(h, e, false, db2);
  }

  lemma ClaimedRun(hs: Hashes) returns (h: History)
    requires HashOk(hs)
    ensures Run(hs, h) && |h.events| == 3 && h.states[0] == Empty()
    ensures h.events[2] == ClaimCall(Req(hs, 'a')) && h.accepted[2]
    ensures h.states[3].bindings == h.states[2].bindings == map["w" := Binding()]
    ensures h.states[3].effects == map[['a'] := Effect('a', E.ReceiptClaimed, 1)]
  {
    h := PreparedRun(hs);
    var db := h.states[2];
    ClaimGoesThrough(hs, db, 'a');
    ClaimStep(hs, db, 'a');
    RunGoesOn(hs, h, ClaimCall(Req(hs, 'a')), true, AfterAccept(hs, db, Req(hs, 'a')));
    h := Longer(h, ClaimCall(Req(hs, 'a')), true, AfterAccept(hs, db, Req(hs, 'a')));
  }

  // A run that accepts a claim and then fails its effect closed, binding and receipt
  // evidence unchanged: repeating the call before that returns the claim, after it raises.
  lemma RepeatCanBeRefused(hs: Hashes) returns (h: History, q: Request)
    requires HashOk(hs)
    ensures Run(hs, h) && h.states[0] == Empty() && |h.events| == 4
    ensures h.events[2] == ClaimCall(q) && h.accepted[2]
    ensures var c, before, after := q.claim, h.states[3], h.states[4];
            && after.bindings == before.bindings
            && c.operationId in after.effects && EvidenceMatches(after.effects[c.operationId], c)
            && after.effects[c.operationId].status == E.FailedClosed
            && Answer(hs, before, q) == Some(Existing) && Answer(hs, after, q) == None
  {
    h := ClaimedRun(hs);
    q := Req(hs, 'a');
    UnchangedRepeatReturnsClaim(hs, h, 2, 3);
    var failed := Effect('a', E.FailedClosed, 2);
    var e, db := EffectCall(E.Transition(failed, E.ReceiptClaimed, 1)), h.states[3];
    FailClosedStep(hs, db, 'a');
    RunGoesOn(hs, h, e, false, db.(effects := db.effects[['a'] := failed]));
    h := Longer(h, e, false, db.(effects := db.effects[['a'] := failed]));
    UnchangedRepeatReturnsClaim(hs, h, 2, 4);
  }

  // After the first claim nothing of the second is stored.
  lemma SecondAudience(hs: Hashes, db: Db, after: Db)
    requires HashOk(hs)
    requires db.claims == map[] && db.watermarks == map[] && db.outbox == map[]
             && after == AfterAccept(hs, db, Req(hs, 'a'))
    ensures forall id <- after.claims :: !Clashes(after.claims[id], ClaimOf('b'))
    ensures KeyOf(ClaimOf('b')) !in after.watermarks && ['b'] !in after.outbox && !O.KeyTaken(after.outbox, ['b'])
  {
    EntryGoesIn(hs, db.outbox, 'a');
    assert ['a'][0] == 'a' && ['b'][0] == 'b';
    assert Fill('a', 64)[0] == 'a' && Fill('b', 64)[0] == 'b';
    assert Fill('a', 16)[0] == 'a' && Fill('b', 16)[0] == 'b';
  }

  function TwoEffects(): Db {
    Empty().(bindings := map["w" := Binding()],
             effects := map[['a'] := Effect('a', E.ReceiptReceived, 0), ['b'] := Effect('b', E.ReceiptReceived, 0)])
  }

  lemma FirstIsAcceptable(hs: Hashes)
    requires HashOk(hs)
    ensures Acceptable(hs, TwoEffects(), Req(hs, 'a'))
  {
    assert ['a'][0] == 'a' && ['b'][0] == 'b';
    ClaimGoesThrough(hs, TwoEffects(), 'a');
  }

  lemma SecondIsAcceptable(hs: Hashes)
    requires HashOk(hs)
    ensures Acceptable(hs, AfterAccept(hs, TwoEffects(), Req(hs, 'a')), Req(hs, 'b'))
  {
    var after := AfterAccept(hs, TwoEffects(), Req(hs, 'a'));
    SecondAudience(hs, TwoEffects(), after);
    assert ['a'][0] == 'a' && ['b'][0] == 'b';
    ClaimGoesThrough(hs, after, 'b');
  }

  lemma TwoEffectsRun(hs: Hashes) returns (h: History)
    ensures Run(hs, h) && |h.events| == 3 && h.states[0] == Empty() && h.states[3] == TwoEffects()
  {
    h := PreparedRun(hs);
    var db, b := h.states[2], Effect('b', E.ReceiptReceived, 0);
    assert ['a'][0] == 'a' && ['b'][0] == 'b';
    CreateEffectStep(hs, db, 'b');
    assert db.(effects := db.effects[['b'] := b]) == TwoEffects();
    RunGoesOn(hs, h, EffectCall(E.Create(b, "")), false, TwoEffects());
    h := Longer(h, EffectCall(E.Create(b, "")), false, TwoEffects());
  }

  lemma FirstClaimRun(hs: Hashes) returns (h: History)
    requires HashOk(hs)
    ensures Run(hs, h) && |h.events| == 4 && h.states[0] == Empty()
    ensures h.events[3] == ClaimCall(Req(hs, 'a')) && h.accepted[3] && h.states[3] == TwoEffects()
    ensures h.states[4] == AfterAccept(hs, TwoEffects(), Req(hs, 'a'))
  {
    h := TwoEffectsRun(hs);
    FirstIsAcceptable(hs);
    ClaimStep(hs, TwoEffects(), 'a');
    RunGoesOn(hs, h, ClaimCall(Req(hs, 'a')), true, AfterAccept(hs, TwoEffects(), Req(hs, 'a')));
    h := Longer(h, ClaimCall(Req(hs, 'a')), true, AfterAccept(hs, TwoEffects(), Req(hs, 'a')));
  }

  // A run that accepts two claims of one binding, at one value of its lease sequence and
  // for the same sequence, because they are for two audiences.
  lemma TwoAudiencesShareASequence(hs: Hashes) returns (h: History)
    requires HashOk(hs)
    ensures Run(hs, h) && h.states[0] == Empty() && |h.events| == 5
    ensures h.accepted[3] && h.accepted[4] && h.events[3].ClaimCall? && h.events[4].ClaimCall?
    ensures var c, d := h.events[3].request.claim, h.events[4].request.claim;
            && c.bindingId == d.bindingId && c.remote == d.remote && c.resultingSequence == d.resultingSequence
            && c.audience != d.audience && LeaseSequenceAt(h, 3) == LeaseSequenceAt(h, 4)
  {
    h := FirstClaimRun(hs);
    var db := h.states[4];
    SecondIsAcceptable(hs);
    ClaimStep(hs, db, 'b');
    RunGoesOn(hs, h, ClaimCall(Req(hs, 'b')), true, AfterAccept(hs, db, Req(hs, 'b')));
    h := Longer(h, ClaimCall(Req(hs, 'b')), true, AfterAccept(hs, db, Req(hs, 'b')));
    assert ['a'][0] == 'a' && ['b'][0] == 'b';
  }
}
