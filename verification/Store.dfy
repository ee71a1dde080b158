/** The re-runnable migration of connection tokens (src/store.rs): seeding, backfilling, and running both again. */
module Store {
  import opened Prelude

  datatype Principal = Principal(nick: string, token: string, team: string)

  /** A salted hash, abstractly: it verifies exactly the plaintext it was made from. */
  datatype Hash = Hash(plaintext: string, salt: nat)

  predicate Verifies(secret: string, hash: Hash) {
    hash.plaintext == secret
  }

  /** `tokenId` is a fresh random draw, numbered; `mark` is the label column. */
  datatype TokenRow = TokenRow(principalId: string, tokenId: nat, hash: Hash, mark: string)

  datatype Db = Db(principals: map<string, Principal>, tokens: seq<TokenRow>, drawn: nat)

  const SEED_LABEL := "seed"
  const MIGRATED_LEGACY_LABEL := "migrated-legacy"

  datatype SeedSpec = SeedSpec(id: string, nick: string, token: string, team: string)

  const SEEDS: seq<SeedSpec> := [
    SeedSpec("human", "human", "human-token", "demo"),
    SeedSpec("agent-a", "agent-a", "agent-a-token", "demo"),
    SeedSpec("agent-b", "agent-b", "agent-b-token", "demo"),
    SeedSpec("agent-c", "agent-c", "agent-c-token", "demo"),
    SeedSpec("agent-1", "agent-1", "test-token-1", "test"),
    SeedSpec("agent-2", "agent-2", "test-token-2", "test"),
    SeedSpec("agent-3", "agent-3", "test-token-3", "test")
  ]

  predicate TokenTaken(principals: map<string, Principal>, token: string) {
    exists id :: id in principals && principals[id].token == token
  }

  predicate HasRow(tokens: seq<TokenRow>, id: string) {
    exists i :: 0 <= i < |tokens| && tokens[i].principalId == id
  }

  predicate HasLabel(tokens: seq<TokenRow>, id: string, mark: string) {
    exists i :: 0 <= i < |tokens| && tokens[i].principalId == id && tokens[i].mark == mark
  }

  /** Insert a token row with a freshly drawn id; None where the unique (principal, mark) index refuses it. */
  function InsertToken(db: Db, id: string, plaintext: string, mark: string): Option<Db> {
    if HasLabel(db.tokens, id, mark) then None
    else
      var row := TokenRow(id, db.drawn, Hash(plaintext, db.drawn), mark);
      Some(db.(tokens := db.tokens + [row], drawn := db.drawn + 1))
  }

  /** INSERT OR IGNORE the principal; mirror its token only if the row was new. */
  function Seed(db: Db, s: SeedSpec): Option<Db> {
    if s.id in db.principals || TokenTaken(db.principals, s.token) then Some(db)
    else
      var inserted := db.(principals := db.principals[s.id := Principal(s.nick, s.token, s.team)]);
      InsertToken(inserted, s.id, s.token, SEED_LABEL)
  }

  function SeedAll(db: Db, seeds: seq<SeedSpec>): Option<Db> {
    if seeds == [] then Some(db)
    else
      var before := SeedAll(db, Front(seeds));
      if before.None? then None else Seed(before.value, Last(seeds))
  }

  /** Principals without any token row. */
  function Unmirrored(db: Db): set<string> {
    set id | id in db.principals && !HasRow(db.tokens, id)
  }

  function Backfill(db: Db, ids: seq<string>): Option<Db> {
    if ids == [] then Some(db)
    else
      var before := Backfill(db, Front(ids));
      if before.None? || Last(ids) !in before.value.principals then None
      else InsertToken(before.value, Last(ids), before.value.principals[Last(ids)].token, MIGRATED_LEGACY_LABEL)
  }

  /** `order` is the order in which the backfill query lists its rows. */
  function InitDb(db: Db, order: seq<string>): Option<Db> {
    var seeded := SeedAll(db, SEEDS);
    if seeded.None? then None else Backfill(seeded.value, order)
  }

  // ----- The connection, updated statement by statement -----

  class Database {
    var principals: map<string, Principal>
    var tokens: seq<TokenRow>
    var drawn: nat

    /** The database as a value. */
    function Abs(): Db
      reads this
    {
      Db(principals, tokens, drawn)
    }

    constructor (principals: map<string, Principal>, tokens: seq<TokenRow>, drawn: nat)
      ensures Abs() == Db(principals, tokens, drawn)
    {
      this.principals, this.tokens, this.drawn := principals, tokens, drawn;
    }

    method AddToken(id: string, plaintext: string, mark: string) returns (ok: bool)
      modifies this`tokens, this`drawn
      ensures var r := InsertToken(old(Abs()), id, plaintext, mark);
        ok == r.Some? && Abs() == if ok then r.value else old(Abs())
    {
      var i := 0;
      while i < |tokens|
        invariant 0 <= i <= |tokens|
        invariant forall k :: 0 <= k < i ==> !(tokens[k].principalId == id && tokens[k].mark == mark)
      {
        if tokens[i].principalId == id && tokens[i].mark == mark {
          return false;
        }
        i := i + 1;
      }
      tokens := tokens + [TokenRow(id, drawn, Hash(plaintext, drawn), mark)];
      drawn := drawn + 1;
      return true;
    }

    method SeedPrincipal(s: SeedSpec) returns (ok: bool)
      modifies this
      ensures var r := Seed(old(Abs()), s);
        ok == r.Some? && (ok ==> Abs() == r.value)
    {
      if s.id in principals || TokenTaken(principals, s.token) {
        return true;
      }
      principals := principals[s.id := Principal(s.nick, s.token, s.team)];
      ok := AddToken(s.id, s.token, SEED_LABEL);
    }

    /** The rows are collected first; then each is hashed and inserted. */
    method BackfillPrincipalTokens() returns (ok: bool, ghost order: seq<string>)
      modifies this`tokens, this`drawn
      ensures Enumerates(order, Unmirrored(old(Abs())))
      ensures var r := Backfill(old(Abs()), order);
        ok == r.Some? && (ok ==> Abs() == r.value)
    {
      var rows: seq<string> := [];
      var left := Unmirrored(Abs());
      ghost var all := left;
      while left != {}
        invariant left <= all
        invariant forall id :: id in rows <==> id in all && id !in left
        invariant forall i, j :: 0 <= i < j < |rows| ==> rows[i] != rows[j]
        decreases left
      {
        var id :| id in left;
        left := left - {id};
        rows := rows + [id];
      }
      order := rows;
      ok := true;
      var n := 0;
      while n < |rows|
        invariant 0 <= n <= |rows|
        invariant Backfill(old(Abs()), rows[..n]) == Some(Abs())
        invariant principals == old(principals)
      {
        assert Front(rows[..n + 1]) == rows[..n] && Last(rows[..n + 1]) == rows[n];
        assert rows[n] in rows;
        ok := AddToken(rows[n], principals[rows[n]].token, MIGRATED_LEGACY_LABEL);
        if !ok {
          BackfillStuck(old(Abs()), rows, n + 1);
          return;
        }
        n := n + 1;
      }
      assert rows[..n] == rows;
    }

    method Init() returns (ok: bool, ghost order: seq<string>)
      modifies this
      ensures var seeded := SeedAll(old(Abs()), SEEDS);
        && (seeded.Some? ==> Enumerates(order, Unmirrored(seeded.value)))
        && ok == InitDb(old(Abs()), order).Some?
        && (ok ==> Abs() == InitDb(old(Abs()), order).value)
    {
      order := [];
      var i := 0;
      while i < |SEEDS|
        invariant 0 <= i <= |SEEDS|
        invariant SeedAll(old(Abs()), SEEDS[..i]) == Some(Abs())
      {
        assert Front(SEEDS[..i + 1]) == SEEDS[..i] && Last(SEEDS[..i + 1]) == SEEDS[i];
        ok := SeedPrincipal(SEEDS[i]);
        if !ok {
          SeedStuck(old(Abs()), SEEDS, i + 1);
          return;
        }
        i := i + 1;
      }
      assert SEEDS[..i] == SEEDS;
      ok, order := BackfillPrincipalTokens();
    }
  }

  lemma {:induction false} BackfillStuck(db: Db, ids: seq<string>, n: nat)
    requires n <= |ids| && Backfill(db, ids[..n]).None?
    ensures Backfill(db, ids).None?
    decreases |ids|
  {
    if n < |ids| {
      assert Front(ids)[..n] == ids[..n];
      BackfillStuck(db, Front(ids), n);
    } else {
      assert ids[..n] == ids;
    }
  }

  lemma {:induction false} SeedStuck(db: Db, seeds: seq<SeedSpec>, n: nat)
    requires n <= |seeds| && SeedAll(db, seeds[..n]).None?
    ensures SeedAll(db, seeds).None?
    decreases |seeds|
  {
    if n < |seeds| {
      assert Front(seeds)[..n] == seeds[..n];
      SeedStuck(db, Front(seeds), n);
    } else {
      assert seeds[..n] == seeds;
    }
  }

  // ----- What a migration run guarantees -----

  ghost predicate NoOrphans(db: Db) {
    forall i :: 0 <= i < |db.tokens| ==> db.tokens[i].principalId in db.principals
  }

  ghost predicate UniqueTokens(db: Db) {
    forall a, b ::
      a in db.principals && b in db.principals && db.principals[a].token == db.principals[b].token ==> a == b
  }

  /** Existing principals and rows are kept; what was added belongs to a principal and hashes its current token. */
  ghost predicate Grows(before: Db, after: Db) {
    && (forall id :: id in before.principals ==>
          id in after.principals && after.principals[id] == before.principals[id])
    && before.tokens <= after.tokens
    && (forall i :: |before.tokens| <= i < |after.tokens| ==>
          && after.tokens[i].principalId in after.principals
          && Verifies(after.principals[after.tokens[i].principalId].token, after.tokens[i].hash))
  }

  lemma {:induction false} GrowsTrans(a: Db, b: Db, c: Db)
    requires Grows(a, b) && Grows(b, c)
    ensures Grows(a, c)
  {
    forall i | |a.tokens| <= i < |c.tokens|
      ensures c.tokens[i].principalId in c.principals
      ensures Verifies(c.principals[c.tokens[i].principalId].token, c.tokens[i].hash)
    {
      if i < |b.tokens| {
        assert c.tokens[i] == b.tokens[i];
      }
    }
  }

  lemma {:induction false} SeedGrows(db: Db, s: SeedSpec)
    requires NoOrphans(db) && UniqueTokens(db)
    ensures Seed(db, s).Some?
    ensures var r := Seed(db, s).value;
      && Grows(db, r) && NoOrphans(r) && UniqueTokens(r)
      && (s.id in r.principals || TokenTaken(r.principals, s.token))
  {
  }

  lemma {:induction false} SeedAllGrows(db: Db, seeds: seq<SeedSpec>)
    requires NoOrphans(db) && UniqueTokens(db)
    ensures SeedAll(db, seeds).Some?
    ensures var r := SeedAll(db, seeds).value;
      && Grows(db, r) && NoOrphans(r) && UniqueTokens(r)
      && (forall i :: 0 <= i < |seeds| ==> seeds[i].id in r.principals || TokenTaken(r.principals, seeds[i].token))
  {
    if seeds != [] {
      SeedAllGrows(db, Front(seeds));
      var mid := SeedAll(db, Front(seeds)).value;
      SeedGrows(mid, Last(seeds));
      var r := Seed(mid, Last(seeds)).value;
      GrowsTrans(db, mid, r);
      forall i | 0 <= i < |seeds| ensures seeds[i].id in r.principals || TokenTaken(r.principals, seeds[i].token) {
        if i < |seeds| - 1 {
          assert Front(seeds)[i] == seeds[i];
          if TokenTaken(mid.principals, seeds[i].token) {
            var id :| id in mid.principals && mid.principals[id].token == seeds[i].token;
            assert r.principals[id].token == seeds[i].token;
          }
        }
      }
    }
  }

  lemma {:induction false} BackfillGrows(db: Db, ids: seq<string>)
    requires NoOrphans(db)
    requires forall i :: 0 <= i < |ids| ==> ids[i] in Unmirrored(db)
    requires forall i, j :: 0 <= i < j < |ids| ==> ids[i] != ids[j]
    ensures Backfill(db, ids).Some?
    ensures var r := Backfill(db, ids).value;
      && r.principals == db.principals && Grows(db, r) && NoOrphans(r)
      && (forall id :: HasRow(r.tokens, id) <==> HasRow(db.tokens, id) || id in ids)
  {
    if ids != [] {
      var last := Last(ids);
      BackfillGrows(db, Front(ids));
      var mid := Backfill(db, Front(ids)).value;
      assert ids[|ids| - 1] == last && ids == Front(ids) + [last];
      assert last in Unmirrored(db) && last !in Front(ids);
      assert !HasRow(mid.tokens, last);
      assert !HasLabel(mid.tokens, last, MIGRATED_LEGACY_LABEL);
      var r := Backfill(db, ids).value;
      assert r.tokens == mid.tokens + [Last(r.tokens)];
      RowsAfter(mid.tokens, Last(r.tokens));
      assert Grows(mid, r);
      GrowsTrans(db, mid, r);
    }
  }

  lemma {:induction false} RowsAfter(tokens: seq<TokenRow>, row: TokenRow)
    ensures forall id :: HasRow(tokens + [row], id) <==> HasRow(tokens, id) || id == row.principalId
  {
    var r := tokens + [row];
    assert r[|tokens|] == row;
    forall id | HasRow(tokens, id) ensures HasRow(r, id) {
      var i :| 0 <= i < |tokens| && tokens[i].principalId == id;
      assert r[i].principalId == id;
    }
  }

  lemma {:induction false} SeedAgain(db: Db, seeds: seq<SeedSpec>)
    requires forall i :: 0 <= i < |seeds| ==> seeds[i].id in db.principals || TokenTaken(db.principals, seeds[i].token)
    ensures SeedAll(db, seeds) == Some(db)
  {
    if seeds != [] {
      SeedAgain(db, Front(seeds));
      assert seeds[|seeds| - 1] == Last(seeds);
    }
  }

  lemma {:induction false} HasFirst(order: seq<string>)
    requires order != []
    ensures exists id :: id in order
  {
    assert order[0] in order;
  }

  /**
    From any database with unique tokens and no orphan rows, one run succeeds, keeps what was there, gives every
    principal a token row, hashes each added row from its principal's current token; and a second run changes nothing.
   */
  lemma {:induction false} MigrationReachesAFixpoint(db: Db, order: seq<string>, again: seq<string>)
    requires NoOrphans(db) && UniqueTokens(db)
    requires SeedAll(db, SEEDS).Some? ==> Enumerates(order, Unmirrored(SeedAll(db, SEEDS).value))
    ensures InitDb(db, order).Some?
    ensures var r := InitDb(db, order).value;
      && Grows(db, r) && NoOrphans(r) && UniqueTokens(r)
      && (forall id :: id in r.principals ==> HasRow(r.tokens, id))
      && (Enumerates(again, Unmirrored(r)) ==> InitDb(r, again) == Some(r))
  {
    hide SEEDS;
    SeedAllGrows(db, SEEDS);
    var seeded := SeedAll(db, SEEDS).value;
    forall i | 0 <= i < |order| ensures order[i] in Unmirrored(seeded) {
      assert order[i] in order;
    }
    BackfillGrows(seeded, order);
    var r := InitDb(db, order).value;
    GrowsTrans(db, seeded, r);
    forall id | id in r.principals ensures HasRow(r.tokens, id) {
      assert id in Unmirrored(seeded) || HasRow(seeded.tokens, id);
    }
    SeedAgain(r, SEEDS);
    assert Unmirrored(r) == {};
    if Enumerates(again, Unmirrored(r)) {
      if again != [] {
        HasFirst(again);
        assert false;
      }
    }
  }
}
