/** What one run of the migration adds, row by row (src/store.rs). */
module StoreRuns {
  import opened Prelude
  import opened Store

  /** A row is added exactly if the principal has none under the label, under a fresh number and hashing the secret. */
  lemma {:induction false} InsertAddsOneRow(db: Db, id: string, plaintext: string, mark: string)
    ensures InsertToken(db, id, plaintext, mark).None?
      <==> exists row :: row in db.tokens && row.principalId == id && row.mark == mark
    ensures InsertToken(db, id, plaintext, mark).Some? ==>
      var r := InsertToken(db, id, plaintext, mark).value;
      && r.principals == db.principals && r.drawn == db.drawn + 1
      && |r.tokens| == |db.tokens| + 1 && r.tokens[..|db.tokens|] == db.tokens
      && (var row := r.tokens[|db.tokens|];
          && row.principalId == id && row.tokenId == db.drawn && row.mark == mark
          && forall secret :: Verifies(secret, row.hash) <==> secret == plaintext)
  {
    if row :| row in db.tokens && row.principalId == id && row.mark == mark {
      var i :| 0 <= i < |db.tokens| && db.tokens[i] == row;
      assert HasLabel(db.tokens, id, mark);
    }
  }

  // ----- The unique columns -----

  /** No principal has two rows under one label, and no number was drawn twice. */
  ghost predicate UniqueRows(db: Db) {
    && (forall i, j :: 0 <= i < j < |db.tokens| ==>
          !(db.tokens[i].principalId == db.tokens[j].principalId && db.tokens[i].mark == db.tokens[j].mark))
    && (forall i :: 0 <= i < |db.tokens| ==> db.tokens[i].tokenId < db.drawn)
    && (forall i, j :: 0 <= i < j < |db.tokens| ==> db.tokens[i].tokenId != db.tokens[j].tokenId)
  }

  lemma {:induction false} InsertKeepsUnique(db: Db, id: string, plaintext: string, mark: string)
    requires UniqueRows(db) && InsertToken(db, id, plaintext, mark).Some?
    ensures UniqueRows(InsertToken(db, id, plaintext, mark).value)
  {
    InsertAddsOneRow(db, id, plaintext, mark);
    var r := InsertToken(db, id, plaintext, mark).value;
    assert forall i :: 0 <= i < |db.tokens| ==> r.tokens[i] == db.tokens[i] && db.tokens[i] in db.tokens;
    hide InsertToken, Verifies;
  }

  // ----- What is added -----

  /** Labels tell where an added row comes from, and only principals without one get one of the second kind. */
  ghost predicate AddedRow(before: Db, row: TokenRow) {
    if row.principalId in before.principals
    then row.mark == "migrated-legacy" && !HasRow(before.tokens, row.principalId)
    else row.mark == "seed" && exists i :: 0 <= i < |SEEDS| && SEEDS[i].id == row.principalId
  }

  /** New principals are seeds, with exactly what the seed says. */
  ghost predicate AddedPrincipal(before: Db, id: string, p: Principal, seeds: seq<SeedSpec>) {
    id in before.principals || exists i :: 0 <= i < |seeds| && seeds[i] == SeedSpec(id, p.nick, p.token, p.team)
  }

  ghost predicate SeedsAdd(before: Db, after: Db, seeds: seq<SeedSpec>) {
    && before.tokens <= after.tokens
    && (forall id :: id in before.principals ==>
          id in after.principals && after.principals[id] == before.principals[id])
    && (forall id :: id in after.principals ==> AddedPrincipal(before, id, after.principals[id], seeds))
    && (forall i :: |before.tokens| <= i < |after.tokens| ==>
          && after.tokens[i].mark == "seed" && after.tokens[i].principalId !in before.principals
          && after.tokens[i].principalId in after.principals)
    && (forall id :: id in after.principals && id !in before.principals ==> HasRow(after.tokens, id))
  }

  lemma {:induction false} MoreSeeds(before: Db, db: Db, seeds: seq<SeedSpec>, s: SeedSpec)
    requires SeedsAdd(before, db, seeds)
    ensures SeedsAdd(before, db, seeds + [s])
  {
    forall id | id in db.principals ensures AddedPrincipal(before, id, db.principals[id], seeds + [s]) {
      SeedsGrow(before, id, db.principals[id], seeds, s);
    }
    hide AddedPrincipal, HasRow;
  }

  lemma {:induction false} SeedsGrow(before: Db, id: string, p: Principal, seeds: seq<SeedSpec>, s: SeedSpec)
    requires AddedPrincipal(before, id, p, seeds)
    ensures AddedPrincipal(before, id, p, seeds + [s])
  {
    if id !in before.principals {
      var i :| 0 <= i < |seeds| && seeds[i] == SeedSpec(id, p.nick, p.token, p.team);
      assert (seeds + [s])[i] == seeds[i];
    }
  }

  lemma {:induction false} NewSeed(before: Db, mid: Db, r: Db, seeds: seq<SeedSpec>, s: SeedSpec, row: TokenRow)
    requires SeedsAdd(before, mid, seeds) && s.id !in mid.principals
    requires r.principals == mid.principals[s.id := Principal(s.nick, s.token, s.team)]
    requires r.tokens == mid.tokens + [row] && row.principalId == s.id && row.mark == "seed"
    ensures SeedsAdd(before, r, seeds + [s])
  {
    RowsAfter(mid.tokens, row);
    assert s.id !in before.principals;
    forall id | id in r.principals ensures AddedPrincipal(before, id, r.principals[id], seeds + [s]) {
      if id == s.id {
        assert (seeds + [s])[|seeds|] == SeedSpec(id, s.nick, s.token, s.team);
      } else {
        SeedsGrow(before, id, mid.principals[id], seeds, s);
      }
    }
    hide AddedPrincipal, HasRow;
  }

  lemma {:induction false} SeedsAddOnlySeeds(db: Db, seeds: seq<SeedSpec>)
    requires UniqueRows(db) && SeedAll(db, seeds).Some?
    ensures UniqueRows(SeedAll(db, seeds).value) && SeedsAdd(db, SeedAll(db, seeds).value, seeds)
  {
    if seeds != [] {
      var front, s := Front(seeds), Last(seeds);
      assert seeds == front + [s];
      SeedsAddOnlySeeds(db, front);
      var mid, r := SeedAll(db, front).value, SeedAll(db, seeds).value;
      if s.id in mid.principals || TokenTaken(mid.principals, s.token) {
        hide UniqueRows, SeedsAdd;
        MoreSeeds(db, mid, front, s);
      } else {
        var inserted := mid.(principals := mid.principals[s.id := Principal(s.nick, s.token, s.team)]);
        assert UniqueRows(inserted);
        hide UniqueRows, SeedsAdd, TokenTaken, Verifies;
        InsertKeepsUnique(inserted, s.id, s.token, "seed");
        InsertAddsOneRow(inserted, s.id, s.token, "seed");
        assert r.tokens == mid.tokens + [r.tokens[|mid.tokens|]];
        NewSeed(db, mid, r, front, s, r.tokens[|mid.tokens|]);
      }
    }
  }

  /** From position `n` on there is one row per id, in that order, under the migration's label. */
  ghost predicate LegacyFrom(tokens: seq<TokenRow>, n: nat, ids: seq<string>) {
    && |tokens| == n + |ids|
    && (forall i :: 0 <= i < |ids| ==>
          tokens[n + i].principalId == ids[i] && tokens[n + i].mark == "migrated-legacy")
  }

  lemma {:induction false} OneMoreLegacy(tokens: seq<TokenRow>, n: nat, ids: seq<string>, row: TokenRow)
    requires LegacyFrom(tokens, n, ids) && row.mark == "migrated-legacy"
    ensures LegacyFrom(tokens + [row], n, ids + [row.principalId])
  {
  }

  lemma {:induction false} BackfillAddsLegacy(db: Db, ids: seq<string>)
    requires UniqueRows(db) && Backfill(db, ids).Some?
    ensures var r := Backfill(db, ids).value;
      UniqueRows(r) && r.principals == db.principals && db.tokens <= r.tokens && LegacyFrom(r.tokens, |db.tokens|, ids)
  {
    if ids != [] {
      BackfillAddsLegacy(db, Front(ids));
      var mid, r := Backfill(db, Front(ids)).value, Backfill(db, ids).value;
      var id := Last(ids);
      InsertKeepsUnique(mid, id, mid.principals[id].token, "migrated-legacy");
      InsertAddsOneRow(mid, id, mid.principals[id].token, "migrated-legacy");
      assert r == InsertToken(mid, id, mid.principals[id].token, "migrated-legacy").value;
      hide UniqueRows, InsertToken, Backfill, Verifies, LegacyFrom;
      var row := r.tokens[|mid.tokens|];
      assert r.tokens == mid.tokens + [row] && ids == Front(ids) + [row.principalId];
      OneMoreLegacy(mid.tokens, |db.tokens|, Front(ids), row);
    }
  }

  /**
    A run adds rows of two kinds only: under "seed" for the principals it created, and under "migrated-legacy" for
    principals that were there without any row; and the unique columns stay unique.
   */
  lemma {:induction false} RunAddsWhatIsMissing(db: Db, order: seq<string>)
    requires UniqueRows(db) && InitDb(db, order).Some?
    requires Enumerates(order, Unmirrored(SeedAll(db, SEEDS).value))
    ensures var r := InitDb(db, order).value;
      && UniqueRows(r) && db.tokens <= r.tokens
      && (forall id :: id in r.principals ==> AddedPrincipal(db, id, r.principals[id], SEEDS))
      && (forall i :: |db.tokens| <= i < |r.tokens| ==> AddedRow(db, r.tokens[i]))
  {
    hide SEEDS;
    var seeded, r := SeedAll(db, SEEDS).value, InitDb(db, order).value;
    SeedsAddOnlySeeds(db, SEEDS);
    BackfillAddsLegacy(seeded, order);
    hide UniqueRows, SeedAll, Backfill, HasRow;
    forall i | |db.tokens| <= i < |r.tokens| ensures AddedRow(db, r.tokens[i]) {
      var row := r.tokens[i];
      if i < |seeded.tokens| {
        assert row == seeded.tokens[i];
        assert AddedPrincipal(db, row.principalId, seeded.principals[row.principalId], SEEDS);
      } else {
        assert row.principalId == order[i - |seeded.tokens|] && order[i - |seeded.tokens|] in order;
        BackfilledWasThere(db, seeded, row.principalId);
      }
    }
  }

  lemma {:induction false} RowsStay(tokens: seq<TokenRow>, more: seq<TokenRow>, id: string)
    requires tokens <= more
    ensures HasRow(tokens, id) ==> HasRow(more, id)
  {
    if i :| 0 <= i < |tokens| && tokens[i].principalId == id {
      assert more[i] == tokens[i];
    }
  }

  lemma {:induction false} BackfilledWasThere(db: Db, seeded: Db, id: string)
    requires SeedsAdd(db, seeded, SEEDS) && id in Unmirrored(seeded)
    ensures id in db.principals && !HasRow(db.tokens, id)
  {
    RowsStay(db.tokens, seeded.tokens, id);
    hide HasRow;
  }

  // ----- A new database -----


  function SeedRows(seeds: seq<SeedSpec>): seq<TokenRow> {
    seq(|seeds|, i requires 0 <= i < |seeds| => TokenRow(seeds[i].id, i, Hash(seeds[i].token, i), "seed"))
  }

  ghost predicate Differ(seeds: seq<SeedSpec>) {
    forall i, j :: 0 <= i < j < |seeds| ==> seeds[i].id != seeds[j].id && seeds[i].token != seeds[j].token
  }

  ghost predicate IsSeeded(db: Db, seeds: seq<SeedSpec>) {
    && db.tokens == SeedRows(seeds) && db.drawn == |seeds|
    && (forall id :: id in db.principals <==> exists i :: 0 <= i < |seeds| && seeds[i].id == id)
    && (forall i :: 0 <= i < |seeds| ==>
          && seeds[i].id in db.principals
          && db.principals[seeds[i].id] == Principal(seeds[i].nick, seeds[i].token, seeds[i].team))
  }

  lemma {:induction false} NoRowYet(db: Db, seeds: seq<SeedSpec>, s: SeedSpec)
    requires IsSeeded(db, seeds) && forall i :: 0 <= i < |seeds| ==> seeds[i].id != s.id && seeds[i].token != s.token
    ensures s.id !in db.principals && !TokenTaken(db.principals, s.token) && !HasLabel(db.tokens, s.id, SEED_LABEL)
  {
    forall id | id in db.principals ensures id != s.id && db.principals[id].token != s.token {
      var i :| 0 <= i < |seeds| && seeds[i].id == id;
    }
    assert forall i :: 0 <= i < |db.tokens| ==> db.tokens[i].principalId == seeds[i].id;
  }

  lemma {:induction false} OneMoreSeed(db: Db, r: Db, seeds: seq<SeedSpec>, s: SeedSpec)
    requires IsSeeded(db, seeds) && s.id !in db.principals
    requires r.principals == db.principals[s.id := Principal(s.nick, s.token, s.team)] && r.drawn == db.drawn + 1
    requires r.tokens == db.tokens + [TokenRow(s.id, db.drawn, Hash(s.token, db.drawn), "seed")]
    ensures IsSeeded(r, seeds + [s])
  {
    var all := seeds + [s];
    assert all[|seeds|] == s;
    forall id ensures id in r.principals <==> exists i :: 0 <= i < |all| && all[i].id == id {
      if i :| 0 <= i < |seeds| && seeds[i].id == id {
        assert all[i].id == id;
      }
    }
    assert forall i :: 0 <= i < |seeds| ==> all[i] == seeds[i];
    assert r.tokens == SeedRows(all);
  }

  lemma {:induction false} SeedsFromNothing(seeds: seq<SeedSpec>)
    requires Differ(seeds)
    ensures SeedAll(Db(map[], [], 0), seeds).Some? && IsSeeded(SeedAll(Db(map[], [], 0), seeds).value, seeds)
  {
    if seeds != [] {
      var front, s := Front(seeds), Last(seeds);
      assert seeds == front + [s] && Differ(front);
      assert forall i :: 0 <= i < |front| ==> front[i].id != s.id && front[i].token != s.token;
      SeedsFromNothing(front);
      var mid := SeedAll(Db(map[], [], 0), front).value;
      NoRowYet(mid, front, s);
      hide IsSeeded, Differ, TokenTaken, HasLabel;
      OneMoreSeed(mid, SeedAll(Db(map[], [], 0), seeds).value, front, s);
    }
  }

  predicate Is(r: Db, id: string, token: string, team: string) {
    id in r.principals && r.principals[id] == Principal(id, token, team)
  }

  predicate HasTheSevenPrincipals(r: Db) {
    && |r.principals.Keys| == 7
    && Is(r, "human", "human-token", "demo") && Is(r, "agent-a", "agent-a-token", "demo")
    && Is(r, "agent-b", "agent-b-token", "demo") && Is(r, "agent-c", "agent-c-token", "demo")
    && Is(r, "agent-1", "test-token-1", "test") && Is(r, "agent-2", "test-token-2", "test")
    && Is(r, "agent-3", "test-token-3", "test")
  }

  /** A new database gets the seven demo principals, each with one row that its token verifies. */
  lemma {:induction false} ANewDatabaseGetsTheSeeds()
    ensures InitDb(Db(map[], [], 0), []).Some?
    ensures var r := InitDb(Db(map[], [], 0), []).value;
      && |r.tokens| == 7
      && HasTheSevenPrincipals(r)
      && (forall i :: 0 <= i < 7 ==>
            && r.tokens[i].mark == "seed" && r.tokens[i].principalId in r.principals
            && Verifies(r.principals[r.tokens[i].principalId].token, r.tokens[i].hash))
  {
    SeedsDiffer();
    SevenSeeds();
    hide SEEDS, Differ, SeedAll;
    SeedsFromNothing(SEEDS);
    var r := SeedAll(Db(map[], [], 0), SEEDS).value;
    assert Backfill(r, []) == Some(r);
    SeedsAreSeven(r);
  }

  lemma {:induction false} SeedsDiffer()
    ensures Differ(SEEDS)
  {
    assert "human"[0] == 'h' && "human-token"[0] == 'h';
    assert "agent-a"[6] == 'a' && "agent-b"[6] == 'b' && "agent-c"[6] == 'c';
    assert "agent-1"[6] == '1' && "agent-2"[6] == '2' && "agent-3"[6] == '3';
    assert "agent-a-token"[6] == 'a' && "agent-b-token"[6] == 'b' && "agent-c-token"[6] == 'c';
    assert "agent-a-token"[0] == 'a' && "agent-b-token"[0] == 'a' && "agent-c-token"[0] == 'a';
    assert "test-token-1"[0] == 't' && "test-token-2"[0] == 't' && "test-token-3"[0] == 't';
    assert "test-token-1"[11] == '1' && "test-token-2"[11] == '2' && "test-token-3"[11] == '3';
    assert "agent-a"[0] == 'a' && "agent-b"[0] == 'a' && "agent-c"[0] == 'a';
    assert "agent-1"[0] == 'a' && "agent-2"[0] == 'a' && "agent-3"[0] == 'a';
  }

  lemma {:induction false} SeedsAreSeven(r: Db)
    requires IsSeeded(r, SEEDS)
    ensures HasTheSevenPrincipals(r)
  {
    hide IsSeeded;
    SeedsDiffer();
    SevenSeeds();
    AsManyPrincipals(r, SEEDS);
    hide Differ;
    SeedIs(r, 0);
    SeedIs(r, 1);
    SeedIs(r, 2);
    SeedIs(r, 3);
    SeedIs(r, 4);
    SeedIs(r, 5);
    SeedIs(r, 6);
  }

  lemma {:induction false} SeedIs(r: Db, i: nat)
    requires IsSeeded(r, SEEDS) && i < 7
    ensures SEEDS[i].id in r.principals
    ensures r.principals[SEEDS[i].id] == Principal(SEEDS[i].nick, SEEDS[i].token, SEEDS[i].team)
  {
    assert |SEEDS| == 7;
    hide SEEDS;
  }

  function Ids(seeds: seq<SeedSpec>): set<string> {
    if seeds == [] then {} else Ids(Front(seeds)) + {Last(seeds).id}
  }

  lemma {:induction false} IdsAre(seeds: seq<SeedSpec>)
    ensures forall id :: id in Ids(seeds) <==> exists i :: 0 <= i < |seeds| && seeds[i].id == id
  {
    if seeds != [] {
      IdsAre(Front(seeds));
      assert seeds[|seeds| - 1] == Last(seeds);
      assert forall i :: 0 <= i < |seeds| - 1 ==> Front(seeds)[i] == seeds[i];
    }
  }

  lemma {:induction false} AsManyIds(seeds: seq<SeedSpec>)
    requires Differ(seeds)
    ensures |Ids(seeds)| == |seeds|
  {
    if seeds != [] {
      AsManyIds(Front(seeds));
      IdsAre(Front(seeds));
      assert Last(seeds).id !in Ids(Front(seeds));
    }
  }

  lemma {:induction false} AsManyPrincipals(r: Db, seeds: seq<SeedSpec>)
    requires IsSeeded(r, seeds) && Differ(seeds)
    ensures |r.principals.Keys| == |seeds|
  {
    IdsAre(seeds);
    AsManyIds(seeds);
    assert r.principals.Keys == Ids(seeds);
  }

  lemma {:induction false} SevenSeeds()
    ensures |SEEDS| == 7
  {
  }
}
