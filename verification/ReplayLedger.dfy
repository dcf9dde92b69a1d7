/**
  * The broker's pruned replay table against the set of all nonces ever consumed, under two clock readings per
  * request: one for the expiry check, a later one for the table.
  */
module ReplayLedger {
  import opened Texts

  const PRUNE_SLACK_MS := 60000
  const CLOCK_SKEW_MS := 30000

  /** A signed, otherwise valid ticket presented once. */
  datatype Attempt = Attempt(nonce: Text, issuedAt: int, expiresAt: int, validateAt: int, consumeAt: int)

  datatype Reading = Reading(validateAt: int, consumeAt: int)

  type Table = map<Text, int>

  function Pruned(table: Table, now: int): Table {
    map n | n in table && table[n] >= now - PRUNE_SLACK_MS :: table[n]
  }

  /** A recorded expiry of zero counts as absent. */
  predicate Seen(table: Table, nonce: Text) {
    nonce in table && table[nonce] != 0
  }

  /** Neither from the future, give or take the skew, nor expired. */
  predicate InTime(a: Attempt) {
    a.issuedAt <= a.validateAt + CLOCK_SKEW_MS && a.validateAt <= a.expiresAt
  }

  predicate AcceptsPruned(table: Table, a: Attempt) {
    InTime(a) && !Seen(Pruned(table, a.consumeAt), a.nonce)
  }

  /** The table is written back only when the nonce is recorded. */
  function RecordPruned(table: Table, a: Attempt): Table {
    if AcceptsPruned(table, a) then Pruned(table, a.consumeAt)[a.nonce := a.expiresAt] else table
  }

  predicate AcceptsFull(used: set<Text>, a: Attempt) {
    InTime(a) && a.nonce !in used
  }

  function RecordFull(used: set<Text>, a: Attempt): set<Text> {
    if AcceptsFull(used, a) then used + {a.nonce} else used
  }

  function TableAfter(attempts: seq<Attempt>): Table {
    if attempts == [] then map[]
    else RecordPruned(TableAfter(attempts[..|attempts| - 1]), attempts[|attempts| - 1])
  }

  function UsedAfter(attempts: seq<Attempt>): set<Text> {
    if attempts == [] then {}
    else RecordFull(UsedAfter(attempts[..|attempts| - 1]), attempts[|attempts| - 1])
  }

  predicate AcceptedByTable(attempts: seq<Attempt>, k: nat)
    requires k < |attempts|
  {
    AcceptsPruned(TableAfter(attempts[..k]), attempts[k])
  }

  predicate AcceptedByFull(attempts: seq<Attempt>, k: nat)
    requires k < |attempts|
  {
    AcceptsFull(UsedAfter(attempts[..k]), attempts[k])
  }

  ghost predicate Agree(attempts: seq<Attempt>) {
    forall k | 0 <= k < |attempts| :: AcceptedByTable(attempts, k) == AcceptedByFull(attempts, k)
  }

  function Readings(attempts: seq<Attempt>): seq<Reading> {
    seq(|attempts|, i requires 0 <= i < |attempts| => Reading(attempts[i].validateAt, attempts[i].consumeAt))
  }

  /** A nonce belongs to one ticket. */
  ghost predicate Consistent(attempts: seq<Attempt>) {
    forall i, j | 0 <= i < j < |attempts| && attempts[i].nonce == attempts[j].nonce ::
      attempts[i].issuedAt == attempts[j].issuedAt && attempts[i].expiresAt == attempts[j].expiresAt
  }

  /** Tickets that live at most so long: normalization demands it of every ticket. */
  ghost predicate ShortLived(attempts: seq<Attempt>, life: int) {
    forall i | 0 <= i < |attempts| :: attempts[i].issuedAt < attempts[i].expiresAt <= attempts[i].issuedAt + life
  }

  /** Tickets that live exactly so long: the control plane issues such ones. */
  ghost predicate OfLife(attempts: seq<Attempt>, life: int) {
    forall i | 0 <= i < |attempts| :: attempts[i].expiresAt == attempts[i].issuedAt + life
  }

  ghost predicate Positive(readings: seq<Reading>) {
    forall i | 0 <= i < |readings| :: readings[i].validateAt > 0
  }

  function Max(a: int, b: int): int {
    if a < b then b else a
  }

  /** One ticket can be in time at both readings. */
  predicate CanShare(v: int, w: int, life: int) {
    v <= w + life + CLOCK_SKEW_MS && w <= v + life + CLOCK_SKEW_MS
  }

  /**
    * No table reading made after request i and up to request k, k's own included, exceeds both their validating
    * readings by more than the slack, when these are close enough for one ticket.
    */
  ghost predicate Steady(readings: seq<Reading>, life: int) {
    forall i, j, k | 0 <= i < j <= k < |readings| && CanShare(readings[i].validateAt, readings[k].validateAt, life) ::
      readings[j].consumeAt <= Max(readings[i].validateAt, readings[k].validateAt) + PRUNE_SLACK_MS
  }

  /** Tickets in time at their presentations, the schedule steady for their lives. */
  ghost predicate Fits(attempts: seq<Attempt>, life: int) {
    && Consistent(attempts) && ShortLived(attempts, life)
    && Positive(Readings(attempts)) && Steady(Readings(attempts), life)
  }

  /** Where a used nonce came from, and why it may be missing from the table. */
  ghost predicate Accounted(attempts: seq<Attempt>, n: Text, i: nat) {
    && i < |attempts| && attempts[i].nonce == n && InTime(attempts[i])
    && (|| (n in TableAfter(attempts) && TableAfter(attempts)[n] == attempts[i].expiresAt)
        || exists j | i < j < |attempts| :: attempts[i].expiresAt < attempts[j].consumeAt - PRUNE_SLACK_MS)
  }

  lemma AccountedExtends(attempts: seq<Attempt>, n: Text, i: nat)
    requires attempts != [] && Accounted(attempts[..|attempts| - 1], n, i) && Consistent(attempts)
    ensures Accounted(attempts, n, i)
  {
    var last := |attempts| - 1;
    var before := attempts[..last];
    assert attempts[i] == before[i];
    if j :| i < j < |before| && before[i].expiresAt < before[j].consumeAt - PRUNE_SLACK_MS {
      assert attempts[j] == before[j];
    } else if AcceptsPruned(TableAfter(before), attempts[last]) && attempts[last].nonce != n {
      assert n in TableAfter(attempts) || attempts[i].expiresAt < attempts[last].consumeAt - PRUNE_SLACK_MS;
    }
  }

  /** Between two presentations of a ticket in time a steady clock prunes no entry with its expiry. */
  lemma SteadyKeeps(attempts: seq<Attempt>, i: nat, k: nat, life: int)
    requires i < k < |attempts| && Steady(Readings(attempts), life) && ShortLived(attempts, life)
    requires InTime(attempts[i]) && InTime(attempts[k])
    requires attempts[i].issuedAt == attempts[k].issuedAt && attempts[i].expiresAt == attempts[k].expiresAt
    ensures forall j | i < j <= k :: attempts[j].consumeAt - PRUNE_SLACK_MS <= attempts[i].expiresAt
  {
    var readings := Readings(attempts);
    assert CanShare(readings[i].validateAt, readings[k].validateAt, life);
    forall j | i < j <= k ensures attempts[j].consumeAt - PRUNE_SLACK_MS <= attempts[i].expiresAt {
      assert readings[j].consumeAt <= Max(readings[i].validateAt, readings[k].validateAt) + PRUNE_SLACK_MS;
    }
  }

  ghost predicate AllAccounted(attempts: seq<Attempt>) {
    forall n | n in UsedAfter(attempts) :: exists i: nat :: Accounted(attempts, n, i)
  }

  lemma FitsPrefix(attempts: seq<Attempt>, life: int)
    requires attempts != [] && Fits(attempts, life)
    ensures Fits(attempts[..|attempts| - 1], life)
  {
    assert Readings(attempts[..|attempts| - 1]) == Readings(attempts)[..|attempts| - 1];
  }

  lemma LastAgrees(attempts: seq<Attempt>, life: int)
    requires attempts != [] && Fits(attempts, life)
    requires var before := attempts[..|attempts| - 1];
             AllAccounted(before) && forall n | n in TableAfter(before) :: n in UsedAfter(before)
    ensures AcceptedByTable(attempts, |attempts| - 1) == AcceptedByFull(attempts, |attempts| - 1)
  {
    var last := |attempts| - 1;
    var before, a := attempts[..last], attempts[last];
    if InTime(a) && a.nonce in UsedAfter(before) {
      var i: nat :| Accounted(before, a.nonce, i);
      assert attempts[i] == before[i];
      assert Readings(attempts)[i].validateAt > 0;
      SteadyKeeps(attempts, i, last, life);
      assert a.nonce in TableAfter(before) by {
        assert forall j | i < j < |before| :: before[j] == attempts[j];
      }
    }
  }

  /** On a steady schedule the pruned table answers like a set that is never pruned. */
  lemma {:induction false} SteadyAgrees(attempts: seq<Attempt>, life: int)
    requires Fits(attempts, life)
    ensures Agree(attempts) && AllAccounted(attempts)
    ensures forall n | n in TableAfter(attempts) :: n in UsedAfter(attempts)
  {
    if attempts != [] {
      var last := |attempts| - 1;
      var before := attempts[..last];
      FitsPrefix(attempts, life);
      SteadyAgrees(before, life);
      LastAgrees(attempts, life);
      forall k | 0 <= k < |attempts| ensures AcceptedByTable(attempts, k) == AcceptedByFull(attempts, k) {
        if k < last {
          assert attempts[..k] == before[..k] && AcceptedByTable(before, k) == AcceptedByFull(before, k);
        }
      }
      forall n | n in UsedAfter(attempts) ensures exists i: nat :: Accounted(attempts, n, i) {
        if n in UsedAfter(before) {
          var i: nat :| Accounted(before, n, i);
          AccountedExtends(attempts, n, i);
        } else {
          assert Accounted(attempts, n, last);
        }
      }
    }
  }

  /* The slack is tight: outside a steady schedule some tickets are accepted twice. */

  /** A naming of as many distinct nonces as the schedule is long. */
  ghost predicate Distinct(names: seq<Text>) {
    forall i, j | 0 <= i < j < |names| :: names[i] != names[j]
  }

  /** A ticket of this life that expires at the given time. */
  function Expiring(nonce: Text, expiresAt: int, life: int, r: Reading): Attempt {
    Attempt(nonce, expiresAt - life, expiresAt, r.validateAt, r.consumeAt)
  }

  /** Requests i and k present one ticket, request j another, all in time; the other requests present expired ones. */
  function Attack(readings: seq<Reading>, names: seq<Text>, i: nat, j: nat, k: nat, life: int): seq<Attempt>
    requires i < j <= k < |readings| == |names|
  {
    var shared := Max(readings[i].validateAt, readings[k].validateAt);
    seq(|readings|, x requires 0 <= x < |readings| =>
      var r := readings[x];
      if x == i || x == k then Expiring(names[i], shared, life, r)
      else Expiring(names[x], if x == j then r.validateAt else r.validateAt - 1, life, r))
  }

  /** Expired attempts leave both records alone. */
  lemma {:induction false} ExpiredChangesNothing(attempts: seq<Attempt>, from: nat, to: nat)
    requires from <= to <= |attempts|
    requires forall x | from <= x < to :: !InTime(attempts[x])
    ensures TableAfter(attempts[..to]) == TableAfter(attempts[..from])
    ensures UsedAfter(attempts[..to]) == UsedAfter(attempts[..from])
  {
    if from < to {
      ExpiredChangesNothing(attempts, from, to - 1);
      StepOf(attempts, to - 1);
    }
  }

  lemma StepOf(attempts: seq<Attempt>, k: nat)
    requires k < |attempts|
    ensures TableAfter(attempts[..k + 1]) == RecordPruned(TableAfter(attempts[..k]), attempts[k])
    ensures UsedAfter(attempts[..k + 1]) == RecordFull(UsedAfter(attempts[..k]), attempts[k])
  {
    assert attempts[..k + 1][..k] == attempts[..k];
  }

  lemma AttackIsConsistent(readings: seq<Reading>, names: seq<Text>, i: nat, j: nat, k: nat, life: int)
    requires i < j <= k < |readings| == |names| && Distinct(names) && life > 0
    ensures var attempts := Attack(readings, names, i, j, k, life);
            && Readings(attempts) == readings && Consistent(attempts)
            && ShortLived(attempts, life) && OfLife(attempts, life)
  {
    var attempts := Attack(readings, names, i, j, k, life);
    forall x, y | 0 <= x < y < |attempts| && attempts[x].nonce == attempts[y].nonce
      ensures attempts[x].issuedAt == attempts[y].issuedAt && attempts[x].expiresAt == attempts[y].expiresAt
    {
      assert attempts[x].nonce == names[if x == k then i else x];
      assert attempts[y].nonce == names[if y == k then i else y];
    }
  }

  /** Up to and including request i only its nonce is recorded, with the shared expiry. */
  lemma AttackRecords(attempts: seq<Attempt>, i: nat)
    requires i < |attempts| && InTime(attempts[i]) && forall x | 0 <= x < i :: !InTime(attempts[x])
    ensures AcceptedByTable(attempts, i)
    ensures TableAfter(attempts[..i + 1]) == map[attempts[i].nonce := attempts[i].expiresAt]
    ensures UsedAfter(attempts[..i + 1]) == {attempts[i].nonce}
  {
    ExpiredChangesNothing(attempts, 0, i);
    assert attempts[..0] == [];
    StepOf(attempts, i);
  }

  /** Request j, or k itself, reloads late enough to drop the only entry. */
  lemma GapForgets(attempts: seq<Attempt>, i: nat, j: nat, k: nat)
    requires i < j <= k < |attempts|
    requires TableAfter(attempts[..i + 1]) == map[attempts[i].nonce := attempts[i].expiresAt]
    requires forall x | i < x < k && x != j :: !InTime(attempts[x])
    requires j < k ==> InTime(attempts[j]) && attempts[j].nonce != attempts[i].nonce
    requires attempts[i].expiresAt < attempts[j].consumeAt - PRUNE_SLACK_MS
    ensures attempts[i].nonce !in Pruned(TableAfter(attempts[..k]), attempts[k].consumeAt)
  {
    ExpiredChangesNothing(attempts, i + 1, j);
    if j < k {
      StepOf(attempts, j);
      assert attempts[i].nonce !in TableAfter(attempts[..j + 1]);
      ExpiredChangesNothing(attempts, j + 1, k);
    }
  }

  /** A gap of more than the slack, between requests close enough for one ticket, lets that ticket through twice. */
  lemma AttackSucceeds(readings: seq<Reading>, names: seq<Text>, i: nat, j: nat, k: nat, life: int)
    requires i < j <= k < |readings| == |names| && Distinct(names) && Positive(readings) && life > 0
    requires CanShare(readings[i].validateAt, readings[k].validateAt, life)
    requires readings[j].consumeAt > Max(readings[i].validateAt, readings[k].validateAt) + PRUNE_SLACK_MS
    ensures var attempts := Attack(readings, names, i, j, k, life);
            && Readings(attempts) == readings && Consistent(attempts)
            && ShortLived(attempts, life) && OfLife(attempts, life)
            && AcceptedByTable(attempts, i) && AcceptedByTable(attempts, k) && !AcceptedByFull(attempts, k)
  {
    var attempts := Attack(readings, names, i, j, k, life);
    AttackIsConsistent(readings, names, i, j, k, life);
    AttackRecords(attempts, i);
    UsedGrows(attempts, i + 1, k);
    GapForgets(attempts, i, j, k);
  }

  /** The pruned table answers like the full set for every choice of short-lived tickets. */
  ghost predicate AlwaysAgrees(readings: seq<Reading>, life: int) {
    forall attempts | Readings(attempts) == readings && Consistent(attempts) && ShortLived(attempts, life) ::
      Agree(attempts)
  }

  /** The same for tickets of exactly this life. */
  ghost predicate AgreesOnLife(readings: seq<Reading>, life: int) {
    forall attempts | Readings(attempts) == readings && Consistent(attempts) && OfLife(attempts, life) ::
      Agree(attempts)
  }

  /**
    * The exact slack: on a schedule of clock readings the pruned table answers like the full set, for every choice of
    * tickets that live at most so long, and equally for tickets that live exactly so long, if and only if the
    * schedule is steady for that life.
    */
  lemma SlackIsExact(readings: seq<Reading>, names: seq<Text>, life: int)
    requires |names| == |readings| && Distinct(names) && Positive(readings) && life > 0
    ensures AlwaysAgrees(readings, life) <==> Steady(readings, life)
    ensures AgreesOnLife(readings, life) <==> Steady(readings, life)
  {
    if Steady(readings, life) {
      forall attempts | Readings(attempts) == readings && Consistent(attempts) && ShortLived(attempts, life)
        ensures Agree(attempts)
      {
        SteadyAgrees(attempts, life);
      }
      forall attempts | Readings(attempts) == readings && Consistent(attempts) && OfLife(attempts, life)
        ensures Agree(attempts)
      {
        SteadyAgrees(attempts, life);
      }
    } else {
      var i, j, k :| 0 <= i < j <= k < |readings| &&
        CanShare(readings[i].validateAt, readings[k].validateAt, life) &&
        readings[j].consumeAt > Max(readings[i].validateAt, readings[k].validateAt) + PRUNE_SLACK_MS;
      AttackSucceeds(readings, names, i, j, k, life);
      assert !Agree(Attack(readings, names, i, j, k, life));
    }
  }

  /** A clock that never falls more than the slack behind an earlier table reading, the request's own included. */
  lemma BoundedRegressIsSteady(readings: seq<Reading>, life: int)
    requires forall j, k | 0 <= j <= k < |readings| ::
               readings[j].consumeAt <= readings[k].validateAt + PRUNE_SLACK_MS
    ensures Steady(readings, life)
  {
  }

  /**
    * Running forward is not enough. Here no reading is below an earlier one, yet the ticket is accepted twice: between
    * its own two readings the second request skips more than the slack, and its reload drops the nonce.
    */
  lemma ForwardJumpReplays(nonce: Text)
    ensures var first := Attempt(nonce, 1000, 91000, 1000, 1000);
            var second := Attempt(nonce, 1000, 91000, 91000, 151001);
            AcceptedByTable([first, second], 0) && AcceptedByTable([first, second], 1)
  {
    var attempts := [Attempt(nonce, 1000, 91000, 1000, 1000), Attempt(nonce, 1000, 91000, 91000, 151001)];
    assert attempts[..0] == [];
    StepOf(attempts, 0);
  }

  /** On a steady clock no nonce is accepted twice. */
  lemma AcceptedOnce(attempts: seq<Attempt>, i: nat, k: nat, life: int)
    requires Fits(attempts, life)
    requires i < k < |attempts| && attempts[i].nonce == attempts[k].nonce && AcceptedByTable(attempts, i)
    ensures !AcceptedByTable(attempts, k)
  {
    SteadyAgrees(attempts, life);
    assert AcceptedByFull(attempts, i);
    StepOf(attempts, i);
    UsedGrows(attempts, i + 1, k);
  }

  lemma {:induction false} UsedGrows(attempts: seq<Attempt>, from: nat, to: nat)
    requires from <= to <= |attempts|
    ensures UsedAfter(attempts[..from]) <= UsedAfter(attempts[..to])
  {
    if from < to {
      UsedGrows(attempts, from, to - 1);
      StepOf(attempts, to - 1);
    }
  }
}
