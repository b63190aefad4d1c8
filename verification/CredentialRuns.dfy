/**
 Whole runs of credential transactions, with a history of what each one meant: no account is ever
 selected behind the user's back, and every generation and claim is used once
 (lib/kodo/integrations.ex).
 */
module CredentialRuns {
  import opened Prelude
  import opened Credentials
  import opened CredentialTables

  datatype Fact =
    | Advanced(integration: Uuid, from: nat)
    | Installed(integration: Uuid, from: nat)
    | Chosen(user: UserId, provider: Provider)
    | RefreshWish(integration: Uuid, selected: bool)
    | RefreshEnded(integration: Uuid)
    | DeviceWish(attempt: Uuid, integration: Uuid, selected: bool)
    | Stored(integration: Uuid, credentials: Option<Sealed>)

  /** What a committed transaction adds to the history. */
  function Facts(db: Db, op: Op): seq<Fact>
    requires Apply(db, op).Ok?
  {
    match op
    case Connect(_, id, _, sealed, _) => [Advanced(id, 0), Installed(id, 0), Stored(id, Some(sealed))]
    case InstallCredentials(_, id, gen, install) =>
      [Advanced(id, gen), Installed(id, gen), RefreshEnded(id), Stored(id, Some(install.sealed))]
    case ReleaseRefresh(_, c) => [RefreshEnded(c.integration)]
    case CompleteDevice(_, c, sealed, _, _) =>
      var gen := db.integrations[c.integration].generation;
      [Advanced(c.integration, gen), Installed(c.integration, gen), Stored(c.integration, Some(sealed))]
    case Disconnect(user, id, gen) =>
      [Advanced(id, gen), Chosen(user, db.integrations[id].provider), Stored(id, None)]
    case Activate(user, id, _) => [Chosen(user, db.integrations[id].provider)]
    case ClaimRefresh(_, id, _, _, _) => [RefreshWish(id, db.integrations[id].active)]
    case BeginDevice(_, id, gen, a, _, _, _) =>
      [RefreshEnded(id), Advanced(id, gen), DeviceWish(a, id, SelectionIntent(db, db.integrations[id]))]
    case _ => []
  }

  /** The tables, the history, and every attempt id ever used. */
  datatype World = World(db: Db, facts: seq<Fact>, used: set<Uuid>)

  const EMPTY := World(Db(map[], map[]), [], {})

  /** Generated attempt ids are fresh. */
  predicate FreshId(w: World, op: Op) { op.BeginDevice? ==> op.attempt !in w.used }

  function Step(w: World, op: Op): World
  {
    match Apply(w.db, op)
    case Err(_) => w
    case Ok(db) =>
      World(db, w.facts + Facts(w.db, op), if op.BeginDevice? then w.used + {op.attempt} else w.used)
  }

  // ---- Generations ----

  function GenerationOf(db: Db, id: Uuid): nat { if id in db.integrations then db.integrations[id].generation else 0 }

  /** The history holds exactly one advance per generation, in order, and no install without one. */
  ghost predicate GenerationInv(db: Db, facts: seq<Fact>)
  {
    && (forall i, g: nat :: Advanced(i, g) in facts <==> g < GenerationOf(db, i))
    && (forall i, g: nat :: Installed(i, g) in facts ==> g < GenerationOf(db, i))
    && Ordered(facts)
  }

  ghost predicate Ordered(facts: seq<Fact>)
  {
    forall p, q :: 0 <= p < q < |facts| ==> Before(facts[p], facts[q])
  }

  ghost predicate Before(f: Fact, g: Fact)
  {
    && (f.Advanced? && g.Advanced? && f.integration == g.integration ==> f.from < g.from)
    && (f.Installed? && g.Installed? && f.integration == g.integration ==> f.from < g.from)
  }

  /** The one integration whose generation a committed transaction moves. */
  function Target(op: Op): Option<Uuid>
  {
    match op
    case Connect(_, id, _, _, _) => Some(id)
    case InstallCredentials(_, id, _, _) => Some(id)
    case CompleteDevice(_, c, _, _, _) => Some(c.integration)
    case Disconnect(_, id, _) => Some(id)
    case BeginDevice(_, id, _, _, _, _, _) => Some(id)
    case _ => None
  }

  lemma GenerationOfRow(db: Db, op: Op, i: Uuid)
    requires Apply(db, op).Ok?
    ensures GenerationOf(Apply(db, op).value, i) == GenerationOf(db, i) + if Target(op) == Some(i) then 1 else 0
  {
    hide AnyActive, Accounts, NextAttemptGeneration, HasLiveAttempt, DeviceClaimable, DeviceHeld, Superseded, Touched;
  }

  lemma FactsOfTarget(db: Db, op: Op)
    requires Apply(db, op).Ok?
    ensures var facts := Facts(db, op);
            && (forall i: Uuid, g: nat :: Advanced(i, g) in facts <==>
                  Target(op) == Some(i) && g == GenerationOf(db, i))
            && (forall i, g: nat :: Installed(i, g) in facts ==> Advanced(i, g) in facts)
            && Ordered(facts)
  {
    hide AnyActive, Accounts, NextAttemptGeneration, HasLiveAttempt, DeviceClaimable, DeviceHeld, Superseded, Touched,
         SelectionIntent;
  }

  /** A transaction moves at most one generation, by one, and says so. */
  lemma GenerationStep(db: Db, op: Op)
    requires Apply(db, op).Ok?
    ensures var (db', facts) := (Apply(db, op).value, Facts(db, op));
            && (forall i, g: nat :: Advanced(i, g) in facts <==>
                  g == GenerationOf(db, i) && GenerationOf(db', i) == g + 1)
            && (forall i :: GenerationOf(db, i) <= GenerationOf(db', i) <= GenerationOf(db, i) + 1)
            && (forall i, g: nat :: Installed(i, g) in facts ==> Advanced(i, g) in facts)
            && Ordered(facts)
  {
    hide Apply, Facts, Target, GenerationOf, Ordered;
    FactsOfTarget(db, op);
    forall i: Uuid
      ensures GenerationOf(Apply(db, op).value, i) == GenerationOf(db, i) + if Target(op) == Some(i) then 1 else 0
    {
      GenerationOfRow(db, op, i);
    }
  }

  lemma GenerationsKept(db: Db, facts: seq<Fact>, op: Op)
    requires GenerationInv(db, facts) && Apply(db, op).Ok?
    ensures GenerationInv(Apply(db, op).value, facts + Facts(db, op))
  {
    GenerationStep(db, op);
    hide Apply, Facts, GenerationOf, Ordered;
    var added := Facts(db, op);
    forall f, g | f in facts && g in added
      ensures Before(f, g)
    {
      if f.Advanced? { assert Advanced(f.integration, f.from) in facts; }
      if f.Installed? { assert Installed(f.integration, f.from) in facts; }
      if g.Advanced? { assert Advanced(g.integration, g.from) in added; }
      if g.Installed? { assert Installed(g.integration, g.from) in added; }
    }
    hide Before;
    OrderedAppend(facts, added);
  }

  lemma OrderedAppend(facts: seq<Fact>, added: seq<Fact>)
    requires Ordered(facts) && Ordered(added)
    requires forall f, g :: f in facts && g in added ==> Before(f, g)
    ensures Ordered(facts + added)
  {
    hide Before;
    var all := facts + added;
    forall p, q | 0 <= p < q < |all|
      ensures Before(all[p], all[q])
    {
      if p < |facts| <= q {
        assert all[p] in facts && all[q] in added;
      } else if p >= |facts| {
        assert Before(added[p - |facts|], added[q - |facts|]);
      }
    }
  }

  // ---- Wishes ----

  /**
   What withdraws a recorded wish: a choice of the user at that provider; for a refresh also a later
   claim of the account, whatever that one records, and the end of the refresh.
   */
  predicate Withdraws(f: Fact, wish: Fact, user: UserId, provider: Provider)
  {
    || f == Chosen(user, provider)
    || (wish.RefreshWish? && f.RefreshWish? && f.integration == wish.integration)
    || (wish.RefreshWish? && f == RefreshEnded(wish.integration))
  }

  /** Recorded at `k` and not withdrawn since. */
  ghost predicate StandsAt(facts: seq<Fact>, k: nat, f: Fact, user: UserId, provider: Provider)
  {
    && k < |facts| && facts[k] == f
    && (forall j :: k < j < |facts| ==> !Withdraws(facts[j], f, user, provider))
  }

  ghost predicate Stands(facts: seq<Fact>, f: Fact, user: UserId, provider: Provider)
  {
    exists k: nat :: StandsAt(facts, k, f, user, provider)
  }

  predicate NoneWithdraws(facts: seq<Fact>, f: Fact, user: UserId, provider: Provider)
  {
    && Chosen(user, provider) !in facts
    && (f.RefreshWish? ==>
          && RefreshEnded(f.integration) !in facts
          && RefreshWish(f.integration, true) !in facts && RefreshWish(f.integration, false) !in facts)
  }

  lemma NoneWithdrawsMeans(facts: seq<Fact>, f: Fact, user: UserId, provider: Provider)
    ensures NoneWithdraws(facts, f, user, provider) <==>
              forall g :: g in facts ==> !Withdraws(g, f, user, provider)
  {
    assert Withdraws(Chosen(user, provider), f, user, provider);
    if f.RefreshWish? {
      var i := f.integration;
      assert forall g: Fact :: g.RefreshWish? && g.integration == i ==>
        g == RefreshWish(i, true) || g == RefreshWish(i, false);
      assert Withdraws(RefreshEnded(i), f, user, provider);
      assert Withdraws(RefreshWish(i, true), f, user, provider) && Withdraws(RefreshWish(i, false), f, user, provider);
    }
  }

  lemma StandsLonger(facts: seq<Fact>, added: seq<Fact>, f: Fact, user: UserId, provider: Provider)
    requires Stands(facts, f, user, provider) && NoneWithdraws(added, f, user, provider)
    ensures Stands(facts + added, f, user, provider)
  {
    NoneWithdrawsMeans(added, f, user, provider);
    hide Withdraws, NoneWithdraws;
    var all := facts + added;
    var k: nat :| StandsAt(facts, k, f, user, provider);
    forall j | k < j < |all|
      ensures !Withdraws(all[j], f, user, provider)
    {
      if j >= |facts| { assert all[j] in added; }
    }
    assert StandsAt(all, k, f, user, provider);
  }

  lemma StoodBefore(facts: seq<Fact>, added: seq<Fact>, f: Fact, user: UserId, provider: Provider)
    requires Stands(facts + added, f, user, provider) && f !in added
    ensures Stands(facts, f, user, provider) && NoneWithdraws(added, f, user, provider)
  {
    NoneWithdrawsMeans(added, f, user, provider);
    hide Withdraws, NoneWithdraws;
    var all := facts + added;
    assert forall k :: |facts| <= k < |all| ==> all[k] in added;
    var k: nat :| StandsAt(all, k, f, user, provider);
    assert forall j :: k < j < |facts| ==> facts[j] == all[j];
    assert StandsAt(facts, k, f, user, provider);
    forall j | 0 <= j < |added|
      ensures !Withdraws(added[j], f, user, provider)
    {
      assert added[j] == all[|facts| + j];
    }
  }

  lemma StandsAppend(facts: seq<Fact>, added: seq<Fact>, f: Fact, user: UserId, provider: Provider)
    ensures Stands(facts, f, user, provider) && NoneWithdraws(added, f, user, provider) ==>
              Stands(facts + added, f, user, provider)
    ensures Stands(facts + added, f, user, provider) && f !in added ==>
              Stands(facts, f, user, provider) && NoneWithdraws(added, f, user, provider)
    ensures added != [] && added[|added| - 1] == f ==> Stands(facts + added, f, user, provider)
  {
    hide Stands, NoneWithdraws;
    if Stands(facts, f, user, provider) && NoneWithdraws(added, f, user, provider) {
      StandsLonger(facts, added, f, user, provider);
    }
    if Stands(facts + added, f, user, provider) && f !in added {
      StoodBefore(facts, added, f, user, provider);
    }
    if added != [] && added[|added| - 1] == f {
      StandsAtOnce(facts + added, f, user, provider);
    }
  }

  lemma StandsAtOnce(facts: seq<Fact>, f: Fact, user: UserId, provider: Provider)
    requires facts != [] && facts[|facts| - 1] == f
    ensures Stands(facts, f, user, provider)
  {
    assert StandsAt(facts, |facts| - 1, f, user, provider);
  }

  /**
   A row's flag says exactly that its latest refresh claim recorded the wish and that nothing has
   withdrawn it.
   */
  ghost predicate RefreshWishInv(db: Db, facts: seq<Fact>)
  {
    && (forall i :: i in db.integrations ==>
          var r := db.integrations[i];
          (r.restoreActive <==> Stands(facts, RefreshWish(i, true), r.user, r.provider)))
    && (forall p :: 0 <= p < |facts| && facts[p].RefreshWish? ==> facts[p].integration in db.integrations)
  }

  /** An active attempt's flag says exactly that its wish was recorded and still stands. */
  ghost predicate DeviceWishInv(db: Db, facts: seq<Fact>)
  {
    forall a :: a in db.attempts && db.attempts[a].state == Active ==>
      var t := db.attempts[a];
      (t.activateOnCompletion <==> Stands(facts, DeviceWish(a, t.integration, true), t.user, t.provider))
  }

  ghost predicate UsedInv(w: World)
  {
    && (forall a :: a in w.db.attempts ==> a in w.used)
    && (forall p :: 0 <= p < |w.facts| && w.facts[p].DeviceWish? ==> w.facts[p].attempt in w.used)
  }

  /** A row keeps its flag unless the transaction withdraws the wish; a claim of a selected account records it. */
  ghost predicate FlagCarried(r: Integration, r': Integration, i: Uuid, added: seq<Fact>)
  {
    && r.user == r'.user && r.provider == r'.provider
    && (r'.restoreActive <==>
          || added == [RefreshWish(i, true)]
          || (r.restoreActive && NoneWithdraws(added, RefreshWish(i, true), r.user, r.provider)))
    && (RefreshWish(i, true) in added ==> added == [RefreshWish(i, true)])
  }

  lemma RefreshWishStep(db: Db, op: Op, i: Uuid)
    requires Apply(db, op).Ok? && i in db.integrations
    ensures i in Apply(db, op).value.integrations
    ensures FlagCarried(db.integrations[i], Apply(db, op).value.integrations[i], i, Facts(db, op))
  {
    if IsChoice(op) {
      ChoiceWithdrawsFlag(db, op, i);
    } else if IsRowOp(op) {
      RowOpCarriesFlag(db, op, i);
    } else {
      AttemptOpCarriesFlag(db, op, i);
    }
  }

  lemma ChoiceWithdrawsFlag(db: Db, op: Op, i: Uuid)
    requires Apply(db, op).Ok? && i in db.integrations && IsChoice(op)
    ensures i in Apply(db, op).value.integrations
    ensures FlagCarried(db.integrations[i], Apply(db, op).value.integrations[i], i, Facts(db, op))
  {
    hide WithdrawnAttempt, Terminal;
  }

  lemma RowOpCarriesFlag(db: Db, op: Op, i: Uuid)
    requires Apply(db, op).Ok? && i in db.integrations && IsRowOp(op)
    ensures i in Apply(db, op).value.integrations
    ensures FlagCarried(db.integrations[i], Apply(db, op).value.integrations[i], i, Facts(db, op))
  {
    hide AnyActive, Accounts, HasLiveAttempt;
  }

  lemma AttemptOpCarriesFlag(db: Db, op: Op, i: Uuid)
    requires Apply(db, op).Ok? && i in db.integrations && !IsRowOp(op) && !IsChoice(op)
    ensures i in Apply(db, op).value.integrations
    ensures FlagCarried(db.integrations[i], Apply(db, op).value.integrations[i], i, Facts(db, op))
  {
    hide AnyActive, Accounts, NextAttemptGeneration, DeviceClaimable, DeviceHeld, Superseded, Touched, SelectionIntent;
  }

  /** A new account has no flag, and a claim is of a stored account. */
  lemma NewRowHasNoFlag(db: Db, op: Op)
    requires Apply(db, op).Ok?
    ensures forall i :: i in Apply(db, op).value.integrations && i !in db.integrations ==>
              !Apply(db, op).value.integrations[i].restoreActive
    ensures forall f :: f in Facts(db, op) && f.RefreshWish? ==> f.integration in db.integrations
    ensures db.integrations.Keys <= Apply(db, op).value.integrations.Keys
  {
    hide AnyActive, Accounts, NextAttemptGeneration, HasLiveAttempt, DeviceClaimable, DeviceHeld, Superseded, Touched,
         SelectionIntent;
  }

  lemma RefreshWishesKept(db: Db, facts: seq<Fact>, op: Op)
    requires RefreshWishInv(db, facts) && Apply(db, op).Ok?
    ensures RefreshWishInv(Apply(db, op).value, facts + Facts(db, op))
  {
    hide Apply, Facts, Stands, NoneWithdraws;
    var db', added := Apply(db, op).value, Facts(db, op);
    NewRowHasNoFlag(db, op);
    forall i | i in db'.integrations
      ensures var r := db'.integrations[i];
              r.restoreActive <==> Stands(facts + added, RefreshWish(i, true), r.user, r.provider)
    {
      var r := db'.integrations[i];
      StandsAppend(facts, added, RefreshWish(i, true), r.user, r.provider);
      if i in db.integrations {
        RefreshWishStep(db, op, i);
      } else {
        UnknownRowHasNoWish(db, facts, i, r.user, r.provider);
      }
    }
  }

  lemma UnknownRowHasNoWish(db: Db, facts: seq<Fact>, i: Uuid, user: UserId, provider: Provider)
    requires RefreshWishInv(db, facts) && i !in db.integrations
    ensures !Stands(facts, RefreshWish(i, true), user, provider)
  {
  }

  /** An attempt that is still active kept its flag, unless a choice at its provider withdrew it. */
  ghost predicate WishCarried(t: Attempt, t': Attempt, a: Uuid, added: seq<Fact>)
  {
    && t.state == Active && t.integration == t'.integration && t.user == t'.user && t.provider == t'.provider
    && (t'.activateOnCompletion <==> t.activateOnCompletion && Chosen(t.user, t.provider) !in added)
    && DeviceWish(a, t.integration, true) !in added
  }

  lemma DeviceWishStep(db: Db, op: Op, a: Uuid)
    requires Apply(db, op).Ok? && a in Apply(db, op).value.attempts && Apply(db, op).value.attempts[a].state == Active
    ensures var t := Apply(db, op).value.attempts[a];
            if op.BeginDevice? && op.attempt == a then
              t.integration == op.id && Facts(db, op) ==
                [RefreshEnded(op.id), Advanced(op.id, op.gen), DeviceWish(a, t.integration, t.activateOnCompletion)]
            else a in db.attempts && WishCarried(db.attempts[a], t, a, Facts(db, op))
  {
    if IsRowOp(op) {
      RowOpSparesAttempts(db, op);
      hide Apply, Facts;
    } else if IsChoice(op) {
      ChoiceWithdraws(db, op, a);
      hide Apply, Facts;
    } else {
      AttemptOpCarries(db, op, a);
      hide Apply, Facts;
    }
  }

  lemma RowOpSparesAttempts(db: Db, op: Op)
    requires Apply(db, op).Ok? && IsRowOp(op)
    ensures Apply(db, op).value.attempts == db.attempts
    ensures forall f :: f in Facts(db, op) ==> !f.Chosen? && !f.DeviceWish?
  {
    hide AnyActive, Accounts, HasLiveAttempt;
  }

  lemma ChoiceWithdraws(db: Db, op: Op, a: Uuid)
    requires Apply(db, op).Ok? && IsChoice(op)
    requires a in Apply(db, op).value.attempts && Apply(db, op).value.attempts[a].state == Active
    ensures a in db.attempts && WishCarried(db.attempts[a], Apply(db, op).value.attempts[a], a, Facts(db, op))
  {
    hide Emptied, Sibling;
  }

  lemma AttemptOpCarries(db: Db, op: Op, a: Uuid)
    requires Apply(db, op).Ok? && !IsChoice(op) && !IsRowOp(op)
    requires a in Apply(db, op).value.attempts && Apply(db, op).value.attempts[a].state == Active
    ensures var t := Apply(db, op).value.attempts[a];
            if op.BeginDevice? && op.attempt == a then
              t.integration == op.id && Facts(db, op) ==
                [RefreshEnded(op.id), Advanced(op.id, op.gen), DeviceWish(a, t.integration, t.activateOnCompletion)]
            else a in db.attempts && WishCarried(db.attempts[a], t, a, Facts(db, op))
  {
    hide AnyActive, Accounts, NextAttemptGeneration, DeviceClaimable, SelectionIntent, WithCredentials;
  }

  lemma DeviceWishesKept(w: World, op: Op)
    requires DeviceWishInv(w.db, w.facts) && UsedInv(w) && FreshId(w, op) && Apply(w.db, op).Ok?
    ensures DeviceWishInv(Apply(w.db, op).value, w.facts + Facts(w.db, op))
  {
    hide Apply, Facts, Stands;
    var db', added := Apply(w.db, op).value, Facts(w.db, op);
    forall a | a in db'.attempts && db'.attempts[a].state == Active
      ensures var t := db'.attempts[a];
              t.activateOnCompletion <==>
                Stands(w.facts + added, DeviceWish(a, t.integration, true), t.user, t.provider)
    {
      var t := db'.attempts[a];
      DeviceWishStep(w.db, op, a);
      StandsAppend(w.facts, added, DeviceWish(a, t.integration, true), t.user, t.provider);
      if op.BeginDevice? && op.attempt == a {
        UnusedIdHasNoWish(w, DeviceWish(a, t.integration, true), t.user, t.provider);
      }
    }
  }

  lemma UnusedIdHasNoWish(w: World, f: Fact, user: UserId, provider: Provider)
    requires UsedInv(w) && f.DeviceWish? && f.attempt !in w.used
    ensures !Stands(w.facts, f, user, provider)
  {
  }

  // ---- Attempts and generations ----

  /** Begun at `k`; every later advance of the integration starts at the expected generation or above. */
  ghost predicate BegunAt(facts: seq<Fact>, k: nat, id: Uuid, a: Attempt)
  {
    && k < |facts| && facts[k].DeviceWish? && facts[k].attempt == id && facts[k].integration == a.integration
    && (forall j :: k < j < |facts| && facts[j].Advanced? && facts[j].integration == a.integration ==>
          a.expected <= facts[j].from)
  }

  ghost predicate HasBegun(facts: seq<Fact>, id: Uuid, a: Attempt) { exists k: nat :: BegunAt(facts, k, id, a) }

  ghost predicate BegunInv(db: Db, facts: seq<Fact>)
  {
    forall a :: a in db.attempts ==> HasBegun(facts, a, db.attempts[a])
  }

  lemma BegunAppend(facts: seq<Fact>, added: seq<Fact>, id: Uuid, a: Attempt, a': Attempt)
    requires HasBegun(facts, id, a) && a'.integration == a.integration && a'.expected == a.expected
    requires forall g: nat :: Advanced(a.integration, g) in added ==> a.expected <= g
    ensures HasBegun(facts + added, id, a')
  {
    var k: nat :| BegunAt(facts, k, id, a);
    assert forall j :: |facts| <= j < |facts + added| ==>
      (facts + added)[j] == added[j - |facts|] && added[j - |facts|] in added;
    assert BegunAt(facts + added, k, id, a');
  }

  lemma BegunKept(db: Db, facts: seq<Fact>, op: Op)
    requires Tables(db) && BegunInv(db, facts) && Apply(db, op).Ok?
    ensures BegunInv(Apply(db, op).value, facts + Facts(db, op))
  {
    var db', added := Apply(db, op).value, Facts(db, op);
    GenerationStep(db, op);
    ApplyKeeps(db, op);
    forall a | a in db'.attempts
      ensures HasBegun(facts + added, a, db'.attempts[a])
    {
      if a !in db.attempts { NewAttempt(db, op, a); }
      hide Apply, Facts, HasBegun, RowOk, AttemptOk;
      if a in db.attempts {
        assert AttemptStep(db.attempts[a], db'.attempts[a]) && Linked(db, db.attempts[a]);
        BegunAppend(facts, added, a, db.attempts[a], db'.attempts[a]);
      } else {
        BegunNow(facts, added, a, db'.attempts[a]);
      }
    }
  }

  lemma BegunNow(facts: seq<Fact>, added: seq<Fact>, id: Uuid, a: Attempt)
    requires |added| == 3 && added[2].DeviceWish? && added[2].attempt == id && added[2].integration == a.integration
    ensures HasBegun(facts + added, id, a)
  {
    assert BegunAt(facts + added, |facts| + 2, id, a);
  }

  lemma NewAttempt(db: Db, op: Op, a: Uuid)
    requires Apply(db, op).Ok? && a in Apply(db, op).value.attempts && a !in db.attempts
    ensures op.BeginDevice? && op.attempt == a && Apply(db, op).value.attempts[a].integration == op.id
    ensures |Facts(db, op)| == 3 && Facts(db, op)[2].DeviceWish?
    ensures Facts(db, op)[2].attempt == a && Facts(db, op)[2].integration == op.id
  {
    hide AnyActive, Accounts, NextAttemptGeneration, HasLiveAttempt, DeviceClaimable;
  }

  // ---- Runs ----

  ghost predicate Inv(w: World)
  {
    && Tables(w.db) && UsedInv(w)
    && GenerationInv(w.db, w.facts)
    && RefreshWishInv(w.db, w.facts) && DeviceWishInv(w.db, w.facts)
    && BegunInv(w.db, w.facts)
  }

  lemma UsedKept(w: World, op: Op)
    requires UsedInv(w) && Apply(w.db, op).Ok?
    ensures UsedInv(Step(w, op))
  {
    hide AnyActive, Accounts, NextAttemptGeneration, HasLiveAttempt, DeviceClaimable;
    var w' := Step(w, op);
    forall a | a in w'.db.attempts
      ensures a in w'.used
    {
      if a !in w.db.attempts { NewAttempt(w.db, op, a); }
    }
  }

  lemma StepKeepsInv(w: World, op: Op)
    requires Inv(w) && FreshId(w, op)
    ensures Inv(Step(w, op))
  {
    hide Apply, Facts, Tables, UsedInv, GenerationInv, RefreshWishInv, DeviceWishInv, BegunInv;
    if Apply(w.db, op).Ok? {
      ApplyKeeps(w.db, op);
      UsedKept(w, op);
      GenerationsKept(w.db, w.facts, op);
      RefreshWishesKept(w.db, w.facts, op);
      DeviceWishesKept(w, op);
      BegunKept(w.db, w.facts, op);
    }
  }

  predicate FreshRun(w: World, ops: seq<Op>)
    decreases |ops|
  {
    ops == [] || (FreshId(w, ops[0]) && FreshRun(Step(w, ops[0]), ops[1..]))
  }

  function Run(w: World, ops: seq<Op>): World
    decreases |ops|
  {
    if ops == [] then w else Run(Step(w, ops[0]), ops[1..])
  }

  lemma {:induction false} RunKeepsInv(w: World, ops: seq<Op>)
    requires Inv(w) && FreshRun(w, ops)
    ensures Inv(Run(w, ops))
    decreases |ops|
  {
    hide Inv, Step, FreshId;
    if ops != [] {
      StepKeepsInv(w, ops[0]);
      RunKeepsInv(Step(w, ops[0]), ops[1..]);
    }
  }

  lemma EmptyInv()
    ensures Inv(EMPTY)
  {
  }

  // ---- Main results ----

  /** In every reachable state the constraints and unique indexes hold. */
  lemma TablesAlwaysHold(ops: seq<Op>)
    requires FreshRun(EMPTY, ops)
    ensures Tables(Run(EMPTY, ops).db)
  {
    EmptyInv();
    RunKeepsInv(EMPTY, ops);
  }

  /**
   Every generation an integration has passed was left by exactly one transition, and at most one
   credential install succeeded per generation.
   */
  lemma OneTransitionPerGeneration(ops: seq<Op>, i: Uuid, g: nat, p: nat, q: nat)
    requires FreshRun(EMPTY, ops) && p < |Run(EMPTY, ops).facts| && q < |Run(EMPTY, ops).facts|
    ensures var w := Run(EMPTY, ops);
            && (Advanced(i, g) in w.facts <==> g < GenerationOf(w.db, i))
            && (w.facts[p] == w.facts[q] && (w.facts[p].Advanced? || w.facts[p].Installed?) ==> p == q)
  {
    EmptyInv();
    RunKeepsInv(EMPTY, ops);
    hide Run, FreshRun, Tables, UsedInv, RefreshWishInv, DeviceWishInv, BegunInv, GenerationOf;
    var w := Run(EMPTY, ops);
    assert p < q ==> Before(w.facts[p], w.facts[q]);
    assert q < p ==> Before(w.facts[q], w.facts[p]);
  }

  /** Completing an attempt implies that no transition has moved the generation since it began. */
  lemma CompletionFindsGenerationUntouched(ops: seq<Op>, op: Op)
    requires FreshRun(EMPTY, ops) && op.CompleteDevice? && Apply(Run(EMPTY, ops).db, op).Ok?
    ensures exists k: nat :: UntouchedSince(Run(EMPTY, ops).facts, k, op.device)
  {
    hide Run, FreshRun, Inv, UntouchedSince;
    EmptyInv();
    RunKeepsInv(EMPTY, ops);
    BegunAndUntouched(Run(EMPTY, ops), op);
  }

  /** The attempt began at `k`, and its integration's generation has not moved since. */
  ghost predicate UntouchedSince(facts: seq<Fact>, k: nat, c: DeviceClaim)
  {
    && k < |facts| && facts[k].DeviceWish? && facts[k].attempt == c.attempt && facts[k].integration == c.integration
    && forall j :: k < j < |facts| && facts[j].Advanced? ==> facts[j].integration != c.integration
  }

  lemma BegunAndUntouched(w: World, op: Op)
    requires Inv(w) && op.CompleteDevice? && Apply(w.db, op).Ok?
    ensures exists k: nat :: UntouchedSince(w.facts, k, op.device)
  {
    hide Tables, UsedInv, RefreshWishInv, DeviceWishInv, AnyActive, Ordered, WithCredentials, Terminal;
    var c := op.device;
    assert HasBegun(w.facts, c.attempt, w.db.attempts[c.attempt]);
    var k: nat :| BegunAt(w.facts, k, c.attempt, w.db.attempts[c.attempt]);
    forall j | k < j < |w.facts| && w.facts[j].Advanced?
      ensures w.facts[j].integration != c.integration
    {
      assert w.facts[j] in w.facts;
      assert Advanced(w.facts[j].integration, w.facts[j].from) in w.facts;
    }
    assert UntouchedSince(w.facts, k, c);
  }

  /** The four ways, besides an explicit activation, in which an account may become selected. */
  ghost predicate SelectionAccounted(w: World, op: Op, i: Uuid, user: UserId, provider: Provider)
  {
    || (op.Connect? && op.id == i && Accounts(w.db, user, provider) == {})
    || (op.InstallCredentials? && op.id == i && i in w.db.integrations
        && IsInitialOauth(w.db, w.db.integrations[i], op.install))
    || (op.InstallCredentials? && op.id == i && op.install.restoreActive
        && Stands(w.facts, RefreshWish(i, true), user, provider))
    || (op.CompleteDevice? && op.device.integration == i
        && Stands(w.facts, DeviceWish(op.device.attempt, i, true), user, provider))
  }

  lemma SelectionStep(db: Db, op: Op, i: Uuid)
    requires Apply(db, op).Ok? && i in Apply(db, op).value.integrations && Apply(db, op).value.integrations[i].active
    requires i in db.integrations ==> !db.integrations[i].active
    ensures var r := Apply(db, op).value.integrations[i];
            || (op.Activate? && op.id == i && op.user == r.user)
            || (op.Connect? && op.id == i && Accounts(db, r.user, r.provider) == {})
            || (i in db.integrations && Sibling(db.integrations[i], r.user, r.provider)
                && !AnyActive(db, r.user, r.provider)
                && ((op.InstallCredentials? && op.id == i
                     && (IsInitialOauth(db, db.integrations[i], op.install)
                         || (op.install.restoreActive && db.integrations[i].restoreActive)))
                    || (op.CompleteDevice? && op.device.integration == i && DeviceMatches(db, op.device)
                        && db.attempts[op.device.attempt].activateOnCompletion)))
  {
    hide AnyActive, Accounts, NextAttemptGeneration, HasLiveAttempt, DeviceClaimable, DeviceHeld, Superseded, Touched,
         IsInitialOauth;
  }

  /**
   No silent reactivation: an account that is not selected becomes selected only by an explicit
   activation of it, as the first account, or - when no account there is selected - because its
   refresh claim or device authorization recorded that wish and the user has neither activated nor
   disconnected an account of that provider since.
   */
  lemma NoSilentReactivation(ops: seq<Op>, op: Op, i: Uuid)
    requires FreshRun(EMPTY, ops) && Apply(Run(EMPTY, ops).db, op).Ok?
    requires var (db, db') := (Run(EMPTY, ops).db, Apply(Run(EMPTY, ops).db, op).value);
             && i in db'.integrations && db'.integrations[i].active
             && (i in db.integrations ==> !db.integrations[i].active)
    ensures var w := Run(EMPTY, ops);
            var r := Apply(w.db, op).value.integrations[i];
            || (op.Activate? && op.id == i && op.user == r.user)
            || (!AnyActive(w.db, r.user, r.provider) && SelectionAccounted(w, op, i, r.user, r.provider))
  {
    EmptyInv();
    RunKeepsInv(EMPTY, ops);
    var w := Run(EMPTY, ops);
    SelectionStep(w.db, op, i);
    hide Run, FreshRun, Apply, UsedInv, GenerationInv, BegunInv, AnyActive, Stands, Accounts, IsInitialOauth;
    var r := Apply(w.db, op).value.integrations[i];
    if op.Connect? && op.id == i && Accounts(w.db, r.user, r.provider) == {} {
      NoAccountNoneActive(w.db, r.user, r.provider);
    }
    if op.CompleteDevice? && DeviceMatches(w.db, op.device) {
      assert Linked(w.db, w.db.attempts[op.device.attempt]);
    }
  }

  /**
   A finished device authorization leaves its account selected exactly when it was, or when its
   beginning recorded the wish, no choice at the provider has committed since, and nothing there is
   selected.
   */
  lemma CompletionSelectsExactlyWhen(ops: seq<Op>, op: Op)
    requires FreshRun(EMPTY, ops) && op.CompleteDevice? && Apply(Run(EMPTY, ops).db, op).Ok?
    ensures var (w, c) := (Run(EMPTY, ops), op.device);
            && c.integration in w.db.integrations
            && (var r := w.db.integrations[c.integration];
                Apply(w.db, op).value.integrations[c.integration].active <==>
                  r.active || (Stands(w.facts, DeviceWish(c.attempt, c.integration, true), r.user, r.provider)
                               && !AnyActive(w.db, r.user, r.provider)))
  {
    EmptyInv();
    RunKeepsInv(EMPTY, ops);
    var w, c := Run(EMPTY, ops), op.device;
    hide Run, FreshRun, UsedInv, GenerationInv, BegunInv, AnyActive, Stands;
    assert Linked(w.db, w.db.attempts[c.attempt]);
  }

  /** Over any run, identities stay, and generations and refresh-claim epochs never decrease. */
  lemma {:induction false} CountersNeverDecrease(w: World, ops: seq<Op>)
    requires Inv(w) && FreshRun(w, ops)
    ensures RowsStep(w.db.integrations, Run(w, ops).db.integrations)
    decreases |ops|
  {
    hide Apply, Inv, FreshId, Facts, RowStep;
    if ops == [] {
      RowStepReflexive(w.db.integrations);
    } else {
      var next := Step(w, ops[0]);
      StepKeepsInv(w, ops[0]);
      InvTables(w);
      RowStepReflexive(w.db.integrations);
      if Apply(w.db, ops[0]).Ok? { ApplyKeeps(w.db, ops[0]); }
      CountersNeverDecrease(next, ops[1..]);
      RowsStepTwice(w.db.integrations, next.db.integrations, Run(w, ops).db.integrations);
    }
  }

  lemma RowStepReflexive(rows: map<Uuid, Integration>)
    ensures RowsStep(rows, rows)
  {
  }

  lemma RowsStepTwice(a: map<Uuid, Integration>, b: map<Uuid, Integration>, c: map<Uuid, Integration>)
    requires RowsStep(a, b) && RowsStep(b, c)
    ensures RowsStep(a, c)
  {
    forall i | i in a
      ensures i in c && RowStep(a[i], c[i])
    {
      assert RowStep(a[i], b[i]) && RowStep(b[i], c[i]);
    }
  }

  /**
   Installing credentials leaves an account selected exactly when it was, or when no account there is
   selected and either it is the user's only account getting its first credentials, or the installer
   asks for it, the account's latest refresh claim recorded the wish, and since that claim there was no
   release, install or new authorization of the account and no choice at the provider.
   */
  lemma InstallSelectsExactlyWhen(ops: seq<Op>, op: Op)
    requires FreshRun(EMPTY, ops) && op.InstallCredentials? && Apply(Run(EMPTY, ops).db, op).Ok?
    ensures var w := Run(EMPTY, ops);
            && op.id in w.db.integrations
            && (var r := w.db.integrations[op.id];
                Apply(w.db, op).value.integrations[op.id].active <==>
                  || r.active
                  || (&& !AnyActive(w.db, r.user, r.provider)
                      && (|| IsInitialOauth(w.db, r, op.install)
                          || (op.install.restoreActive
                              && Stands(w.facts, RefreshWish(op.id, true), r.user, r.provider)))))
  {
    EmptyInv();
    RunKeepsInv(EMPTY, ops);
    hide Run, FreshRun, Tables, UsedInv, GenerationInv, BegunInv, DeviceWishInv, AnyActive, Accounts, Stands;
    assert RefreshWishInv(Run(EMPTY, ops).db, Run(EMPTY, ops).facts);
  }

  // ---- Claims ----

  /** A claim from the past that no longer matches. */
  ghost predicate RefreshGone(db: Db, c: RefreshClaim)
  {
    && c.integration in db.integrations && !RefreshMatches(db, c)
    && c.generation <= db.integrations[c.integration].generation && c.epoch <= db.integrations[c.integration].claimEpoch
  }

  /** Once taken over, released or outlived by its generation, a refresh claim never matches again. */
  lemma {:induction false} RefreshGoneForever(w: World, ops: seq<Op>, c: RefreshClaim)
    requires Inv(w) && FreshRun(w, ops) && RefreshGone(w.db, c)
    ensures RefreshGone(Run(w, ops).db, c)
    decreases |ops|
  {
    hide Apply, Inv, FreshId, Facts;
    if ops != [] {
      StepKeepsInv(w, ops[0]);
      if Apply(w.db, ops[0]).Ok? {
        InvTables(w);
        ApplyKeeps(w.db, ops[0]);
        RefreshGoneStep(w.db, Apply(w.db, ops[0]).value, c);
      }
      RefreshGoneForever(Step(w, ops[0]), ops[1..], c);
    }
  }

  lemma InvTables(w: World)
    requires Inv(w)
    ensures Tables(w.db) && UsedInv(w)
  {
  }

  lemma RefreshGoneStep(db: Db, db': Db, c: RefreshClaim)
    requires Evolves(db, db') && RefreshGone(db, c)
    ensures RefreshGone(db', c)
  {
    assert RowStep(db.integrations[c.integration], db'.integrations[c.integration]);
  }

  /** A new claim on the row, a release of this one, or any move of the generation ends a refresh claim. */
  lemma RefreshClaimEnds(db: Db, op: Op, c: RefreshClaim)
    requires RefreshMatches(db, c) && Apply(db, op).Ok?
    requires || (op.ClaimRefresh? && op.id == c.integration)
             || ((op.ReleaseRefresh? || op.RequireReauthorization?) && op.refresh == c)
             || Target(op) == Some(c.integration)
    ensures RefreshGone(Apply(db, op).value, c)
  {
    hide AnyActive, Accounts, NextAttemptGeneration, HasLiveAttempt, Superseded;
    GenerationOfRow(db, op, c.integration);
  }

  ghost predicate DeviceGone(w: World, c: DeviceClaim)
  {
    && c.attempt in w.used && !DeviceMatches(w.db, c)
    && (c.attempt in w.db.attempts ==> c.epoch <= w.db.attempts[c.attempt].claimEpoch)
  }

  /**
   The same for a device claim, although a deleted attempt's generation may be used again: its id
   never is.
   */
  lemma {:induction false} DeviceGoneForever(w: World, ops: seq<Op>, c: DeviceClaim)
    requires Inv(w) && FreshRun(w, ops) && DeviceGone(w, c)
    ensures DeviceGone(Run(w, ops), c)
    decreases |ops|
  {
    hide Inv, DeviceGone, Step;
    if ops != [] {
      StepKeepsInv(w, ops[0]);
      DeviceGoneStep(w, ops[0], c);
      DeviceGoneForever(Step(w, ops[0]), ops[1..], c);
    }
  }

  lemma DeviceGoneStep(w: World, op: Op, c: DeviceClaim)
    requires Inv(w) && FreshId(w, op) && DeviceGone(w, c)
    ensures DeviceGone(Step(w, op), c)
  {
    hide Apply, GenerationInv, RefreshWishInv, DeviceWishInv, BegunInv, RowOk, AttemptOk, OneActiveAccount,
         OneActiveAttempt, Facts;
    if Apply(w.db, op).Ok? {
      ApplyKeeps(w.db, op);
      var db' := Apply(w.db, op).value;
      if c.attempt in db'.attempts {
        if c.attempt !in w.db.attempts {
          NewAttempt(w.db, op, c.attempt);
        } else {
          assert AttemptStep(w.db.attempts[c.attempt], db'.attempts[c.attempt])
            && Linked(w.db, w.db.attempts[c.attempt]);
          assert RowStep(w.db.integrations[w.db.attempts[c.attempt].integration],
                         db'.integrations[w.db.attempts[c.attempt].integration]);
        }
      }
    }
  }

  /** The attempt is past its deadline when its owner's attempts for the integration are expired. */
  predicate Expires(db: Db, op: Op, a: Uuid)
    requires op.ExpireDevices? && a in db.attempts
  {
    db.attempts[a].integration == op.id && db.attempts[a].user == op.user && db.attempts[a].deadline <= op.now
  }

  /** A takeover, the end of the attempt, or any move of the integration's generation ends a device claim. */
  lemma DeviceClaimEnds(w: World, op: Op, c: DeviceClaim)
    requires Inv(w) && DeviceMatches(w.db, c) && Apply(w.db, op).Ok?
    requires || (op.ClaimDevice? && Apply(w.db, op).value.attempts[c.attempt] != w.db.attempts[c.attempt])
             || (op.FailDevice? && op.device == c)
             || (op.CancelDevice? && op.attempt == c.attempt)
             || (op.ExpireDevices? && Expires(w.db, op, c.attempt))
             || Target(op) == Some(c.integration)
    ensures DeviceGone(Step(w, op), c)
  {
    hide Apply, Facts, RowOk, AttemptOk, GenerationInv, RefreshWishInv, DeviceWishInv, BegunInv, OneActiveAccount,
         OneActiveAttempt;
    ApplyKeeps(w.db, op);
    var db' := Apply(w.db, op).value;
    assert c.attempt in db'.attempts ==> AttemptStep(w.db.attempts[c.attempt], db'.attempts[c.attempt]);
    if Target(op) == Some(c.integration) {
      GenerationOfRow(w.db, op, c.integration);
    } else {
      AttemptEnds(w.db, op, c);
    }
  }

  lemma AttemptEnds(db: Db, op: Op, c: DeviceClaim)
    requires DeviceMatches(db, c) && Apply(db, op).Ok?
    requires || (op.ClaimDevice? && Apply(db, op).value.attempts[c.attempt] != db.attempts[c.attempt])
             || (op.FailDevice? && op.device == c)
             || (op.CancelDevice? && op.attempt == c.attempt)
             || (op.ExpireDevices? && Expires(db, op, c.attempt))
    ensures !DeviceMatches(Apply(db, op).value, c)
  {
  }
}
