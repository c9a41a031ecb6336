/**
 The two-tier budget: a ledger row that is the truth and a Redis cell that is a hint.

 The functions say what one call does to the row and to the cell; the classes do it in place. The
 arithmetic of the reservation script is exact.
 */
module Governor {
  import opened Wrappers
  import opened Schemas

  /** A row of the ledger, as a value. */
  datatype Budget = Budget(limit: int, consumed: int, version: int, active: bool)

  datatype GovernorError = NonPositiveAmount | NoActiveBudget | CapExceeded | NegativeReset | LostCell

  function Room(b: Budget): int { b.limit - b.consumed }

  predicate Usable(b: Option<Budget>) { b.Some? && b.value.active }

  // ---------------------------------------------------------------------------------------------
  // What each call does, as functions.
  // ---------------------------------------------------------------------------------------------

  /** The reservation script: the reply and the cell it leaves. A refusal leaves the cell alone. */
  function Script(cell: Option<int>, seed: int, amount: int): (bool, int, Option<int>)
  {
    var current := if cell.Some? then cell.value else seed;
    if current < amount then (false, current, cell) else (true, current - amount, Some(current - amount))
  }

  datatype Reservation = Reservation(granted: bool, remaining: Option<int>, cell: Option<int>)

  /** `reserve`: the ledger is asked first, and only then the script runs. */
  function Reserve(b: Option<Budget>, cell: Option<int>, amount: int): Reservation
  {
    if !Usable(b) then Reservation(false, None, cell)
    else if Room(b.value) < amount then Reservation(false, Some(Max(Room(b.value), 0)), cell)
    else
      var (granted, reply, after) := Script(cell, Max(Room(b.value), 0), amount);
      Reservation(granted, Some(reply), after)
  }

  /** What the ledger has left to offer, which is what an absent cell is filled with. */
  predicate Left(b: Budget, figure: int) { figure == if Room(b) > 0 then Room(b) else 0 }

  /** What a reservation comes down to: the figure it is measured against is the cell, or else the ledger's room. */
  lemma ReserveMeans(b: Option<Budget>, cell: Option<int>, amount: int)
    requires amount > 0
    ensures var r := Reserve(b, cell, amount);
      && (!Usable(b) ==> !r.granted && r.remaining.None?)
      && (r.granted ==> Usable(b))
      && (Usable(b) ==>
        var offer := if cell.Some? then cell.value else Room(b.value);
        && (r.granted <==> amount <= Room(b.value) && amount <= offer)
        && (r.granted ==> r.cell == Some(offer - amount) && r.remaining == r.cell)
        && (Room(b.value) < amount ==> r.remaining == Some(if Room(b.value) > 0 then Room(b.value) else 0))
        && (offer < amount <= Room(b.value) ==> r.remaining == Some(offer)))
      && (!r.granted ==> r.cell == cell)
  {
  }

  function Commit(b: Option<Budget>, amount: int): Result<Budget, GovernorError>
  {
    if amount <= 0 then Err(NonPositiveAmount)
    else if !Usable(b) then Err(NoActiveBudget)
    else if b.value.consumed + amount > b.value.limit then Err(CapExceeded)
    else Ok(b.value.(consumed := b.value.consumed + amount, version := b.value.version + 1))
  }

  function Release(b: Option<Budget>, cell: Option<int>, amount: int): Option<int>
  {
    if amount <= 0 || b.None? then cell else Some(Max(Room(b.value), 0))
  }

  /** `upsert_budget` on the row it locked: a new row, a new limit, or a refusal. */
  function Upsert(b: Option<Budget>, limit: int): Option<Budget>
  {
    match b
    case None => Some(Budget(limit, 0, 1, true))
    case Some(row) => if limit < row.consumed then None else Some(row.(limit := limit, version := row.version + 1))
  }

  /** What every writer keeps of a row. */
  predicate Sane(b: Budget) { 0 <= b.consumed <= b.limit }

  lemma CommitKeepsCap(b: Option<Budget>, amount: int)
    requires b.Some? ==> Sane(b.value)
    ensures var r := Commit(b, amount);
      && (r.Ok? <==> amount > 0 && Usable(b) && amount <= Room(b.value))
      && (r.Ok? ==>
        && Sane(r.value) && r.value.consumed == b.value.consumed + amount && Room(r.value) == Room(b.value) - amount
        && r.value.limit == b.value.limit && r.value.version == b.value.version + 1 && r.value.active)
      && (r == Err(NonPositiveAmount) <==> amount <= 0)
      && (r == Err(NoActiveBudget) <==> amount > 0 && !Usable(b))
      && (r == Err(CapExceeded) <==> amount > 0 && Usable(b) && Room(b.value) < amount)
  {
  }

  lemma UpsertKeepsCap(b: Option<Budget>, limit: int)
    requires b.Some? ==> Sane(b.value)
    requires limit > 0
    ensures var r := Upsert(b, limit);
      && (r.None? <==> b.Some? && limit < b.value.consumed)
      && (r.Some? ==>
        && Sane(r.value) && r.value.limit == limit
        && (b.None? ==> r.value.consumed == 0 && r.value.version == 1 && r.value.active)
        && (b.Some? ==>
          && r.value.consumed == b.value.consumed && r.value.version == b.value.version + 1
          && r.value.active == b.value.active))
  {
  }

  // ---------------------------------------------------------------------------------------------
  // The same in place.
  // ---------------------------------------------------------------------------------------------

  /** A loaded ledger row. */
  class BudgetRow {
    var limit: int
    var consumed: int
    var version: int
    var active: bool

    constructor (b: Budget)
      ensures Value() == b
    {
      limit, consumed, version, active := b.limit, b.consumed, b.version, b.active;
    }

    function Value(): Budget
      reads this
    {
      Budget(limit, consumed, version, active)
    }
  }

  function RowValue(row: BudgetRow?): Option<Budget>
    reads row
  {
    if row == null then None else Some(row.Value())
  }

  /** The reservation cells, with the commands that reach them. */
  class Redis {
    var cells: map<BudgetKey, int>

    constructor ()
      ensures cells == map[]
    {
      cells := map[];
    }

    function Cell(k: BudgetKey): Option<int>
      reads this
    {
      if k in cells then Some(cells[k]) else None
    }

    method Set(k: BudgetKey, v: int)
      modifies this
      ensures cells == old(cells)[k := v]
    {
      cells := cells[k := v];
    }

    method SetIfAbsent(k: BudgetKey, v: int)
      modifies this
      ensures cells == if k in old(cells) then old(cells) else old(cells)[k := v]
    {
      if k !in cells {
        cells := cells[k := v];
      }
    }

    /** EVAL of the reservation script. */
    method EvalReserve(k: BudgetKey, seed: int, amount: int) returns (granted: bool, reply: int)
      modifies this
      ensures (granted, reply, Cell(k)) == Script(old(Cell(k)), seed, amount)
      ensures cells - {k} == old(cells) - {k}
    {
      var current := if k in cells then cells[k] else seed;
      if current < amount {
        return false, current;
      }
      var remaining := current - amount;
      cells := cells[k := remaining];
      assert cells - {k} == old(cells) - {k};
      return true, remaining;
    }

    /** The time to live of a key may run out between any two commands. */
    method MayExpire(k: BudgetKey)
      modifies this
      ensures cells == old(cells) || cells == old(cells) - {k}
    {
      if * {
        cells := cells - {k};
      }
    }
  }

  class TokenBucketGovernor {
    const redis: Redis

    constructor (redis: Redis)
      ensures this.redis == redis
    {
      this.redis := redis;
    }

    /** The key may expire between the two reads; then there is no number to report and this raises. */
    method RemainingBudget(row: BudgetRow?, k: BudgetKey) returns (r: Result<Option<int>, GovernorError>)
      modifies redis
      ensures redis.cells - {k} == old(redis.cells) - {k}
      ensures !Usable(RowValue(row)) ==> r == Ok(None) && redis.cells == old(redis.cells)
      ensures Usable(RowValue(row)) && r.Ok? ==>
        r.value.Some? && (r.value == old(redis.Cell(k)) || Left(RowValue(row).value, r.value.value))
      ensures redis.Cell(k).None? || redis.Cell(k) == old(redis.Cell(k))
        || (Usable(RowValue(row)) && Left(RowValue(row).value, redis.Cell(k).value))
      ensures r.Err? ==> r == Err(LostCell) && Usable(RowValue(row)) && redis.Cell(k).None?
    {
      if row == null || !row.active {
        return Ok(None);
      }
      redis.MayExpire(k);
      var cached := redis.Cell(k);
      if cached.None? {
        var remaining := row.limit - row.consumed;
        if remaining < 0 {
          remaining := 0;
        }
        redis.SetIfAbsent(k, remaining);
        redis.MayExpire(k);
        cached := redis.Cell(k);
        if cached.None? {
          return Err(LostCell);
        }
      }
      return Ok(cached);
    }

    method ReserveBudget(row: BudgetRow?, k: BudgetKey, amount: int)
      returns (r: Result<(bool, Option<int>), GovernorError>)
      modifies redis
      ensures redis.cells - {k} == old(redis.cells) - {k}
      ensures r.Err? <==> amount <= 0
      ensures amount <= 0 ==> r == Err(NonPositiveAmount) && redis.cells == old(redis.cells)
      ensures amount > 0 ==>
        var s := Reserve(RowValue(row), old(redis.Cell(k)), amount);
        r.value == (s.granted, s.remaining) && redis.Cell(k) == s.cell
    {
      if amount <= 0 {
        return Err(NonPositiveAmount);
      }
      if row == null || !row.active {
        return Ok((false, None));
      }
      var databaseRemaining := row.limit - row.consumed;
      if databaseRemaining < amount {
        return Ok((false, Some(Max(databaseRemaining, 0))));
      }
      var granted, reply := redis.EvalReserve(k, Max(databaseRemaining, 0), amount);
      return Ok((granted, Some(reply)));
    }

    /** Charges the locked row; refuses, leaving it as it is, when the cap would be passed. */
    method CommitBudget(row: BudgetRow?, amount: int) returns (r: Result<(), GovernorError>)
      modifies row
      ensures var s := Commit(old(RowValue(row)), amount);
        if s.Ok? then r.Ok? && RowValue(row) == Some(s.value)
          else r == Err(s.error) && RowValue(row) == old(RowValue(row))
    {
      if amount <= 0 {
        return Err(NonPositiveAmount);
      }
      if row == null || !row.active {
        return Err(NoActiveBudget);
      }
      if row.consumed + amount > row.limit {
        return Err(CapExceeded);
      }
      row.consumed := row.consumed + amount;
      row.version := row.version + 1;
      return Ok(());
    }

    method ReleaseBudget(row: BudgetRow?, k: BudgetKey, amount: int)
      modifies redis
      ensures redis.Cell(k) == Release(RowValue(row), old(redis.Cell(k)), amount)
      ensures redis.cells - {k} == old(redis.cells) - {k}
    {
      if amount <= 0 || row == null {
        return;
      }
      var remaining := row.limit - row.consumed;
      redis.Set(k, Max(remaining, 0));
      assert redis.cells - {k} == old(redis.cells) - {k};
    }

    method Reset(k: BudgetKey, remaining: int) returns (r: Result<(), GovernorError>)
      modifies redis
      ensures r == if remaining < 0 then Err(NegativeReset) else Ok(())
      ensures redis.cells == if remaining < 0 then old(redis.cells) else old(redis.cells)[k := remaining]
    {
      if remaining < 0 {
        return Err(NegativeReset);
      }
      redis.Set(k, remaining);
      return Ok(());
    }
  }
}
