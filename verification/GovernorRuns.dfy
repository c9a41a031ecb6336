/**
 Runs of one budget: one ledger row, one cell and the reservations outstanding against them, under
 every interleaving of governor steps.
 */
module GovernorRuns {
  import opened Wrappers
  import opened Schemas
  import opened Json
  import opened Governor

  /** `held` lists the granted amounts that are neither committed nor released. */
  datatype Account = Account(row: Budget, cell: Option<int>, held: seq<int>)

  datatype Step =
    | Seed(seen: Budget)                     // the SET NX of `remaining`, from the row it read
    | Take(seen: Budget, amount: int)        // `reserve`, from the row it read
    | Expire                                 // the key's time to live runs out
    | Overwrite(v: int)                      // any other SET of the key
    | Settle(i: nat)                         // commit of holder i, then `reset`
    | GiveBack(i: nat)                       // `release` by holder i
    | Relimit(limit: int)                    // `upsert_budget`

  function Sum(xs: seq<int>): int { if xs == [] then 0 else xs[|xs| - 1] + Sum(xs[..|xs| - 1]) }

  predicate Positive(xs: seq<int>) { forall i | 0 <= i < |xs| :: xs[i] > 0 }

  function Granted(a: Account, s: Step): bool
  {
    s.Take? && s.amount > 0 && Reserve(Some(s.seen), a.cell, s.amount).granted
  }

  /** One step; a commit that is refused leaves the account as it is. */
  function Do(a: Account, s: Step): Account
  {
    match s
    case Seed(seen) => if a.cell.None? && seen.active then a.(cell := Some(Max(Room(seen), 0))) else a
    case Take(seen, amount) =>
      if amount <= 0 then a
      else
        var r := Reserve(Some(seen), a.cell, amount);
        a.(cell := r.cell, held := if r.granted then a.held + [amount] else a.held)
    case Expire => a.(cell := None)
    case Overwrite(v) => a.(cell := Some(v))
    case Settle(i) =>
      if i >= |a.held| then a
      else
        (match Commit(Some(a.row), a.held[i])
         case Err(_) => a
         case Ok(row) => Account(row, Some(Room(row)), Without(a.held, i)))
    case GiveBack(i) =>
      if i >= |a.held| then a
      else a.(cell := Release(Some(a.row), a.cell, a.held[i]), held := Without(a.held, i))
    case Relimit(limit) =>
      (match Upsert(Some(a.row), limit)
       case None => a
       case Some(row) => a.(row := row, cell := Some(Room(row))))
  }

  function Run(a: Account, steps: seq<Step>): Account
  {
    if steps == [] then a else Do(Run(a, steps[..|steps| - 1]), steps[|steps| - 1])
  }

  /** A commit by a holder that the cap check refuses. */
  predicate Refused(a: Account, s: Step)
  {
    s.Settle? && s.i < |a.held| && Commit(Some(a.row), a.held[s.i]).Err?
  }

  /** Every commit along the run passes the cap check. */
  predicate AllPass(a: Account, steps: seq<Step>)
  {
    forall n | 0 <= n < |steps| :: !Refused(Run(a, steps[..n]), steps[n])
  }

  predicate WellFormed(a: Account) { Sane(a.row) && a.row.active && Positive(a.held) }

  lemma {:induction false} SumWithout(xs: seq<int>, i: nat)
    requires i < |xs|
    ensures Sum(xs) == xs[i] + Sum(Without(xs, i))
  {
    var n := |xs| - 1;
    if i < n {
      SumWithout(xs[..n], i);
      assert Without(xs, i)[..n - 1] == Without(xs[..n], i);
      assert Without(xs, i)[n - 1] == xs[n];
    } else {
      assert Without(xs, i) == xs[..n];
    }
  }

  lemma {:induction false} SumNonNegative(xs: seq<int>)
    requires Positive(xs)
    ensures Sum(xs) >= |xs|
  {
    if xs != [] {
      SumNonNegative(xs[..|xs| - 1]);
    }
  }

  lemma HolderFits(a: Account, i: nat)
    requires WellFormed(a) && i < |a.held| && Sum(a.held) <= Room(a.row)
    ensures Commit(Some(a.row), a.held[i]).Ok?
  {
    SumWithout(a.held, i);
    SumNonNegative(Without(a.held, i));
  }

  lemma StepWellFormed(a: Account, s: Step)
    requires WellFormed(a)
    ensures WellFormed(Do(a, s))
  {
  }

  lemma {:induction false} RunWellFormed(a: Account, steps: seq<Step>)
    requires WellFormed(a)
    ensures WellFormed(Run(a, steps))
  {
    if steps != [] {
      RunWellFormed(a, steps[..|steps| - 1]);
      StepWellFormed(Run(a, steps[..|steps| - 1]), steps[|steps| - 1]);
    }
  }

  // ---------------------------------------------------------------------------------------------
  // Conservation between two overwrites of the key.
  // ---------------------------------------------------------------------------------------------

  predicate EpochStep(s: Step) { s.Seed? || s.Take? }

  /** What the first step that fills an absent cell fills it with, had it not also taken from it. */
  function Opening(a: Account, steps: seq<Step>): Option<int>
  {
    if steps == [] then a.cell
    else
      var before := Opening(a, steps[..|steps| - 1]);
      var s := steps[|steps| - 1];
      if before.Some? then before
      else if s.Seed? then (if s.seen.active then Some(Max(Room(s.seen), 0)) else None)
      else if Granted(Run(a, steps[..|steps| - 1]), s) then Some(Max(Room(s.seen), 0))
      else None
  }

  lemma TakeConserves(a: Account, s: Step)
    requires s.Take? && (a.cell.Some? ==> a.cell.value >= 0)
    ensures var b := Do(a, s);
      && b.row == a.row
      && (!Granted(a, s) ==> b == a)
      && (Granted(a, s) ==>
        && b.cell.Some? && b.cell.value >= 0
        && Sum(b.held) == Sum(a.held) + s.amount
        && b.cell.value + s.amount == if a.cell.Some? then a.cell.value else Max(Room(s.seen), 0))
  {
    var h := a.held + [s.amount];
    assert h[..|h| - 1] == a.held;
  }

  /**
   Between two overwrites or expiries, for every interleaving of concurrent reservers, however stale
   the rows they read: stored value plus granted amounts is the opening value, never below zero.
   */
  lemma {:induction false} EpochConservation(a: Account, steps: seq<Step>)
    requires forall s | s in steps :: EpochStep(s)
    requires a.cell.Some? ==> a.cell.value >= 0
    ensures var b := Run(a, steps);
      && (b.cell.Some? <==> Opening(a, steps).Some?)
      && (b.cell.Some? ==> b.cell.value + Sum(b.held) == Opening(a, steps).value + Sum(a.held) && b.cell.value >= 0)
      && (b.cell.None? ==> b.held == a.held)
      && b.row == a.row
  {
    if steps != [] {
      var n := |steps| - 1;
      assert forall s | s in steps[..n] :: s in steps;
      EpochConservation(a, steps[..n]);
      assert EpochStep(steps[n]);
      if steps[n].Take? {
        TakeConserves(Run(a, steps[..n]), steps[n]);
      }
    }
  }

  // ---------------------------------------------------------------------------------------------
  // The batch guarantee.
  // ---------------------------------------------------------------------------------------------

  /**
   Steps of the reserving phase. A reserver may have read the ledger long ago; only the one that
   fills an absent cell must not believe in more room than there is.
   */
  predicate ReservingStep(a: Account, s: Step)
  {
    (s.Seed? || s.Take?) && (a.cell.None? && s.seen.active ==> Room(s.seen) <= Room(a.row))
  }

  /** Afterwards anything may happen but a further reservation or a cut of the limit. */
  predicate SettlingStep(a: Account, s: Step) { !s.Take? && (s.Relimit? ==> s.limit >= a.row.limit) }

  predicate Phase(p: (Account, Step) -> bool, a: Account, steps: seq<Step>)
  {
    forall n | 0 <= n < |steps| :: p(Run(a, steps[..n]), steps[n])
  }

  function Available(a: Account): int { if a.cell.Some? then a.cell.value else Room(a.row) }

  /** Outstanding grants and what the cell still offers fit together into the room of the ledger. */
  predicate Backed(a: Account) { Sum(a.held) + Max(Available(a), 0) <= Room(a.row) }

  lemma RunPrefix(a: Account, steps: seq<Step>, n: nat)
    requires n < |steps|
    ensures Run(a, steps[..n + 1]) == Do(Run(a, steps[..n]), steps[n])
  {
    assert steps[..n + 1][..n] == steps[..n];
  }

  /** A grant moves the amount from the cell to the holders. */
  lemma GrantKeepsBacked(a: Account, s: Step)
    requires WellFormed(a) && ReservingStep(a, s) && Granted(a, s) && Backed(a)
    ensures Backed(Do(a, s)) && Do(a, s).row == a.row
  {
    var b := Do(a, s);
    assert b.held == a.held + [s.amount] && b.held[..|b.held| - 1] == a.held;
    assert Sum(b.held) == Sum(a.held) + s.amount;
    assert b.cell.value + s.amount == if a.cell.Some? then a.cell.value else Max(Room(s.seen), 0);
    SumNonNegative(a.held);
  }

  /** A cell that is absent backs nobody, so only the first reserver's belief matters. */
  lemma ReserveKeepsBacked(a: Account, s: Step)
    requires WellFormed(a) && ReservingStep(a, s) && Backed(a)
    ensures Backed(Do(a, s)) && Do(a, s).row == a.row
  {
    if s.Take? && Granted(a, s) {
      GrantKeepsBacked(a, s);
    } else {
      var b := Do(a, s);
      assert b.held == a.held;
      assert b.cell == a.cell || (a.cell.None? && s.seen.active && b.cell == Some(Max(Room(s.seen), 0)));
    }
  }

  lemma PrefixPhase(p: (Account, Step) -> bool, a: Account, steps: seq<Step>, n: nat)
    requires n <= |steps| && Phase(p, a, steps)
    ensures Phase(p, a, steps[..n])
  {
    forall k | 0 <= k < n ensures p(Run(a, steps[..n][..k]), steps[..n][k]) {
      assert steps[..n][..k] == steps[..k];
      assert p(Run(a, steps[..k]), steps[k]);
    }
  }

  lemma {:induction false} ReservingPhase(a: Account, steps: seq<Step>)
    requires WellFormed(a) && Backed(a) && Phase(ReservingStep, a, steps)
    ensures Backed(Run(a, steps)) && Run(a, steps).row == a.row
  {
    hide Backed;
    if steps != [] {
      var n := |steps| - 1;
      PrefixPhase(ReservingStep, a, steps, n);
      ReservingPhase(a, steps[..n]);
      RunWellFormed(a, steps[..n]);
      assert ReservingStep(Run(a, steps[..n]), steps[n]);
      ReserveKeepsBacked(Run(a, steps[..n]), steps[n]);
    }
  }

  lemma SettleKeepsCover(a: Account, s: Step)
    requires WellFormed(a) && SettlingStep(a, s) && Sum(a.held) <= Room(a.row)
    ensures var b := Do(a, s); Sum(b.held) <= Room(b.row)
    ensures !Refused(a, s)
  {
    if (s.Settle? || s.GiveBack?) && s.i < |a.held| {
      HolderFits(a, s.i);
      SumWithout(a.held, s.i);
    }
  }

  lemma {:induction false} SettlingPhase(a: Account, steps: seq<Step>, n: nat)
    requires WellFormed(a) && Sum(a.held) <= Room(a.row)
    requires Phase(SettlingStep, a, steps) && n <= |steps|
    ensures Sum(Run(a, steps[..n]).held) <= Room(Run(a, steps[..n]).row)
    ensures n < |steps| ==> !Refused(Run(a, steps[..n]), steps[n])
  {
    if n > 0 {
      SettlingPhase(a, steps, n - 1);
      RunPrefix(a, steps, n - 1);
      RunWellFormed(a, steps[..n - 1]);
      assert SettlingStep(Run(a, steps[..n - 1]), steps[n - 1]);
      SettleKeepsCover(Run(a, steps[..n - 1]), steps[n - 1]);
    }
    if n < |steps| {
      RunWellFormed(a, steps[..n]);
      assert SettlingStep(Run(a, steps[..n]), steps[n]);
      SettleKeepsCover(Run(a, steps[..n]), steps[n]);
    }
  }

  /**
   Reservations granted with no overwrite or expiry between them, from however stale rows, can all
   be settled, in any order, each by commit or release: no commit meets the cap.
   */
  lemma BatchGuarantee(a: Account, reserving: seq<Step>, settling: seq<Step>)
    requires WellFormed(a) && a.held == [] && (a.cell.Some? ==> a.cell.value <= Room(a.row))
    requires Phase(ReservingStep, a, reserving)
    requires Phase(SettlingStep, Run(a, reserving), settling)
    ensures Sum(Run(a, reserving).held) <= Room(a.row)
    ensures AllPass(Run(a, reserving), settling)
  {
    ReservingPhase(a, reserving);
    RunWellFormed(a, reserving);
    var b := Run(a, reserving);
    forall n | 0 <= n < |settling| ensures !Refused(Run(b, settling[..n]), settling[n]) {
      SettlingPhase(b, settling, n);
    }
  }

  /** What the first reserver may believe: exactly when no amount it can take exceeds the ledger. */
  lemma AbsentCellSafeIff(a: Account, seen: Budget)
    requires WellFormed(a) && a.held == [] && a.cell.None?
    ensures (forall amount :: Sum(Do(a, Take(seen, amount)).held) <= Room(a.row))
      <==> (seen.active ==> Room(seen) <= Room(a.row))
  {
    forall amount ensures Sum(Do(a, Take(seen, amount)).held) ==
      if seen.active && 0 < amount <= Room(seen) then amount else 0
    {
      assert [amount][..0] == [];
      assert Do(a, Take(seen, amount)).held == if seen.active && 0 < amount <= Room(seen) then [amount] else [];
    }
    if seen.active && Room(seen) > Room(a.row) {
      assert Sum(Do(a, Take(seen, Room(seen))).held) == Room(seen);
    }
  }

  /** Six of ten units are consumed, and a row from before that fills the absent cell with ten. */
  lemma StaleSeedOvergrants()
    ensures var a := Account(Budget(10, 6, 2, true), None, []);
      var b := Run(a, [Take(Budget(10, 0, 1, true), 8)]);
      b.held == [8] && Refused(b, Settle(0))
  {
    var a := Account(Budget(10, 6, 2, true), None, []);
    var steps := [Take(Budget(10, 0, 1, true), 8)];
    assert steps[..0] == [];
    assert Run(a, steps) == Do(a, steps[0]);
  }

  // ---------------------------------------------------------------------------------------------
  // Without that discipline: exactly which states may grant more than the ledger can honour.
  // ---------------------------------------------------------------------------------------------

  /** However the reservers continue, what is granted stays within the ledger. */
  ghost predicate RobustToStale(a: Account)
  {
    forall steps | Phase(ReservingStep, a, steps) :: Sum(Run(a, steps).held) <= Room(Run(a, steps).row)
  }

  /** One reservation that breaks the ledger, made from a row that believes in its amount. */
  lemma StaleOvergrant(a: Account) returns (steps: seq<Step>)
    requires WellFormed(a) && !Backed(a)
    ensures Phase(ReservingStep, a, steps) && Sum(Run(a, steps).held) > Room(a.row) && Run(a, steps).row == a.row
  {
    SumNonNegative(a.held);
    steps := [];
    if Sum(a.held) <= Room(a.row) {
      var x := Room(a.row) - Sum(a.held) + 1;
      var s := Take(if a.cell.Some? then Budget(x, 0, 1, true) else a.row, x);
      steps := [s];
      assert steps[..0] == [] && Run(a, steps) == Do(a, s);
      assert (a.held + [x])[..|a.held|] == a.held;
      assert Do(a, s).held == a.held + [x];
    }
  }

  lemma RobustToStaleIffBacked(a: Account)
    requires WellFormed(a)
    ensures RobustToStale(a) <==> Backed(a)
  {
    if Backed(a) {
      forall steps | Phase(ReservingStep, a, steps) ensures Sum(Run(a, steps).held) <= Room(Run(a, steps).row) {
        ReservingPhase(a, steps);
      }
    } else {
      var steps := StaleOvergrant(a);
    }
  }

  predicate FreshStep(a: Account, s: Step) { s.Take? && s.seen == a.row }

  /** The same for reservers that read the ledger as it stands. */
  ghost predicate Robust(a: Account)
  {
    forall steps | Phase(FreshStep, a, steps) :: Sum(Run(a, steps).held) <= Room(Run(a, steps).row)
  }

  /** What the caller can look at: nothing can be taken, or the cell is honest about the holders. */
  predicate Honest(a: Account) { Sum(a.held) <= Room(a.row) && (Room(a.row) == 0 || Backed(a)) }

  lemma HonestStep(a: Account, s: Step)
    requires WellFormed(a) && Honest(a) && FreshStep(a, s)
    ensures Honest(Do(a, s)) && Do(a, s).row == a.row
  {
    if Granted(a, s) {
      GrantKeepsBacked(a, s);
      SumNonNegative(a.held);
    }
  }

  lemma {:induction false} HonestStays(a: Account, steps: seq<Step>)
    requires WellFormed(a) && Honest(a) && Phase(FreshStep, a, steps)
    ensures Honest(Run(a, steps)) && Run(a, steps).row == a.row
  {
    hide Honest, Reserve;
    if steps != [] {
      var n := |steps| - 1;
      PrefixPhase(FreshStep, a, steps, n);
      HonestStays(a, steps[..n]);
      RunWellFormed(a, steps[..n]);
      assert FreshStep(Run(a, steps[..n]), steps[n]);
      HonestStep(Run(a, steps[..n]), steps[n]);
    }
  }

  lemma OneTake(a: Account, amount: int)
    requires WellFormed(a) && 0 < amount <= Room(a.row) && amount <= Available(a)
    ensures var s := [Take(a.row, amount)];
      && Phase(FreshStep, a, s)
      && Run(a, s) == a.(cell := Some(Available(a) - amount), held := a.held + [amount])
      && Sum(Run(a, s).held) == Sum(a.held) + amount
  {
    var s := [Take(a.row, amount)];
    assert s[..0] == [];
    var h := a.held + [amount];
    assert h[..|h| - 1] == a.held;
  }

  lemma TwoTakes(a: Account, x: int, y: int)
    requires WellFormed(a) && 0 < x <= Room(a.row) && 0 < y <= Room(a.row) && x + y <= Available(a)
    ensures var s := [Take(a.row, x), Take(a.row, y)];
      Phase(FreshStep, a, s) && Sum(Run(a, s).held) == Sum(a.held) + x + y && Run(a, s).row == a.row
  {
    OneTake(a, x);
    var b := Run(a, [Take(a.row, x)]);
    OneTake(b, y);
    var s := [Take(a.row, x), Take(a.row, y)];
    assert s[..1] == [Take(a.row, x)] && s[..0] == [];
    assert Run(a, s) == Do(b, s[1]);
    assert [s[1]][..0] == [];
    assert Run(b, [s[1]]) == Do(b, s[1]);
  }

  lemma Overgrant(a: Account) returns (steps: seq<Step>)
    requires WellFormed(a) && !Honest(a)
    ensures Phase(FreshStep, a, steps) && Sum(Run(a, steps).held) > Room(a.row) && Run(a, steps).row == a.row
  {
    if Sum(a.held) > Room(a.row) {
      steps := [];
    } else {
      SumNonNegative(a.held);
      var x := Min(Available(a), Room(a.row));
      if Sum(a.held) + x > Room(a.row) {
        OneTake(a, x);
        steps := [Take(a.row, x)];
      } else {
        TwoTakes(a, x, 1);
        steps := [Take(a.row, x), Take(a.row, 1)];
      }
    }
  }

  /** Further reservations can never be over-granted exactly from the honest states. */
  lemma RobustIffHonest(a: Account)
    requires WellFormed(a)
    ensures Robust(a) <==> Honest(a)
  {
    if Honest(a) {
      forall steps | Phase(FreshStep, a, steps) ensures Sum(Run(a, steps).held) <= Room(Run(a, steps).row) {
        HonestStays(a, steps);
      }
    } else {
      var steps := Overgrant(a);
    }
  }

  /** A commit that goes through, a release, an expiry, or a new limit that is accepted. */
  predicate Overwrites(a: Account, s: Step)
  {
    match s
    case Settle(i) => i < |a.held| && Commit(Some(a.row), a.held[i]).Ok?
    case GiveBack(i) => i < |a.held|
    case Relimit(limit) => limit >= a.row.consumed
    case Expire => true
    case _ => false
  }

  /** Nobody but the one who settles or gives back holds a reservation. */
  predicate NoOtherHolder(a: Account, s: Step) { |a.held| == if s.Settle? || s.GiveBack? then 1 else 0 }

  lemma OverwriteLeaves(a: Account, s: Step)
    requires WellFormed(a) && Overwrites(a, s)
    ensures var b := Do(a, s);
      && WellFormed(b) && 0 <= Sum(b.held) && Available(b) == Room(b.row)
      && (b.held == [] <==> NoOtherHolder(a, s)) && (b.held == [] <==> Sum(b.held) == 0)
  {
    StepWellFormed(a, s);
    SumNonNegative(Do(a, s).held);
  }

  /** A step that overwrites or drops the key is safe for the others exactly when there are none. */
  lemma OverwriteRobustIff(a: Account, s: Step)
    requires WellFormed(a) && Overwrites(a, s)
    ensures Robust(Do(a, s)) <==> NoOtherHolder(a, s)
    ensures RobustToStale(Do(a, s)) <==> NoOtherHolder(a, s)
  {
    OverwriteLeaves(a, s);
    RobustIffHonest(Do(a, s));
    RobustToStaleIffBacked(Do(a, s));
  }

  /** What one would like to be invariant: the cell is the room less what is held. */
  predicate Naive(a: Account) { Available(a) == Room(a.row) - Sum(a.held) }

  /** The step puts a figure of its own into an absent cell. */
  predicate Fills(a: Account, s: Step)
  {
    a.cell.None? && ((s.Seed? && s.seen.active) || Granted(a, s))
  }

  /** Reservations keep it, exactly when whoever fills an absent cell reads what the ledger has left ... */
  lemma ReserveKeepsNaiveIff(a: Account, s: Step)
    requires WellFormed(a) && Naive(a) && (s.Seed? || s.Take?)
    ensures Naive(Do(a, s)) <==> (Fills(a, s) ==> Max(Room(s.seen), 0) == Room(a.row))
  {
    if Granted(a, s) {
      assert Do(a, s).held == a.held + [s.amount] && (a.held + [s.amount])[..|a.held|] == a.held;
    }
  }

  /** ... steps that overwrite or drop the key leave it true exactly when nobody else holds ... */
  lemma NaiveIff(a: Account, s: Step)
    requires WellFormed(a) && Overwrites(a, s)
    ensures Naive(Do(a, s)) <==> NoOtherHolder(a, s)
  {
    OverwriteLeaves(a, s);
  }

  /** ... and the commits and limits that are refused change nothing. */
  lemma RefusalChangesNothing(a: Account, s: Step)
    requires (s.Settle? || s.GiveBack? || s.Relimit?) && !Overwrites(a, s)
    ensures Do(a, s) == a
  {
  }

  lemma RunNothing(a: Account)
    ensures Run(a, []) == a
  {
  }

  lemma RunFive(a: Account, steps: seq<Step>)
    requires |steps| == 5
    ensures Run(a, steps) == Do(Do(Do(Do(Do(a, steps[0]), steps[1]), steps[2]), steps[3]), steps[4])
  {
    hide Run, Do;
    assert steps[..5] == steps && steps[..0] == [];
    RunNothing(a);
    RunPrefix(a, steps, 0);
    RunPrefix(a, steps, 1);
    RunPrefix(a, steps, 2);
    RunPrefix(a, steps, 3);
    RunPrefix(a, steps, 4);
  }

  /** Why the batch guarantee needs its discipline: ten units, twelve of them promised. */
  lemma ReleaseForgetsHolders()
    ensures var a := Account(Budget(10, 0, 1, true), None, []);
      var steps := [Take(a.row, 6), Take(a.row, 4), GiveBack(1), Take(a.row, 6), Settle(1)];
      Run(a, steps).held == [6] && Refused(Run(a, steps), Settle(0))
  {
    hide Run;
    var row := Budget(10, 0, 1, true);
    RunFive(Account(row, None, []), [Take(row, 6), Take(row, 4), GiveBack(1), Take(row, 6), Settle(1)]);
    assert Do(Account(row, Some(0), [6, 4]), GiveBack(1)) == Account(row, Some(10), [6]);
    assert Do(Account(row, Some(4), [6, 6]), Settle(1)) == Account(Budget(10, 6, 2, true), Some(4), [6]);
  }
}
