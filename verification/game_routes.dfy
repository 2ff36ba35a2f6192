/**
 * The session-progress routes of the game server: create a session, read it,
 * record a cleared stage, and overwrite some of its counters. The database
 * table is a map from session id to session record; each handler either
 * answers 400 or 404 and leaves the map alone, or updates one record.
 *
 * Sets of stage numbers are stored as comma-joined strings, so the module
 * also holds the string conversions the handlers rely on.
 */
module GameRoutes {
  import opened Wrappers

  /** A row of the `game_sessions` table. */
  datatype Session = Session(
    id: string,
    heroName: string,
    heroPower: string,
    clearedStages: string,
    currentHearts: int,
    totalStars: int,
    completedBingoLines: string,
    createdAt: string)

  /** What a handler answers: the session as JSON, or status 400 or 404. */
  datatype Response = Json(session: Session) | BadRequest | NotFound

  /** The columns a partial update may set; `None` leaves a column as it is. */
  datatype SessionPatch = SessionPatch(
    clearedStages: Option<string>,
    currentHearts: Option<int>,
    totalStars: Option<int>,
    completedBingoLines: Option<string>)

  const NoChanges: SessionPatch := SessionPatch(None, None, None, None)

  // ---------------------------------------------------------------------
  // Request fields

  /** JavaScript truthiness of an optional string field: present and not empty. */
  predicate Truthy(v: Option<string>)
  {
    v.Some? && v.value != ""
  }

  /** JavaScript truthiness of an optional number field: present and not zero. */
  predicate TruthyNumber(v: Option<int>)
  {
    v.Some? && v.value != 0
  }

  // ---------------------------------------------------------------------
  // Comma-joined lists

  /** `s.split(",")`: the pieces between commas; never empty. */
  function Split(s: string): (parts: seq<string>)
    ensures |parts| >= 1
    ensures forall p :: p in parts ==> ',' !in p
  {
    if s == [] then [""]
    else
      var rest := Split(s[1..]);
      if s[0] == ',' then [""] + rest
      else [[s[0]] + rest[0]] + rest[1..]
  }

  /** `parts.join(",")`. */
  function Join(parts: seq<string>): string
  {
    if |parts| == 0 then ""
    else if |parts| == 1 then parts[0]
    else parts[0] + "," + Join(parts[1..])
  }

  /** Joining a list whose head is `a`. */
  lemma JoinCons(a: string, rest: seq<string>)
    ensures Join([a] + rest) == if rest == [] then a else a + "," + Join(rest)
  {
  }

  /** Comma-free pieces are joined with exactly one comma between each two. */
  lemma {:induction false} JoinCommas(parts: seq<string>)
    requires forall p :: p in parts ==> ',' !in p
    ensures multiset(Join(parts))[','] == if parts == [] then 0 else |parts| - 1
  {
    if |parts| > 1 {
      JoinCommas(parts[1..]);
      assert parts[0] in parts;
      assert multiset(Join(parts)) == multiset(parts[0]) + multiset(",") + multiset(Join(parts[1..]));
    } else if |parts| == 1 {
      assert parts[0] in parts;
    }
  }

  /** Splitting and re-joining gives back the string. */
  lemma {:induction false} JoinSplit(s: string)
    ensures Join(Split(s)) == s
  {
    if s != [] {
      var rest := Split(s[1..]);
      JoinSplit(s[1..]);
      assert s == [s[0]] + s[1..];
      if s[0] == ',' {
        assert Split(s) == [""] + rest;
        JoinCons("", rest);
      } else {
        var head, tail := rest[0], rest[1..];
        assert rest == [head] + tail;
        assert Split(s) == [[s[0]] + head] + tail;
        JoinCons([s[0]] + head, tail);
        JoinCons(head, tail);
      }
    }
  }

  /** Splitting a string that starts with a comma-free piece `a`. */
  lemma {:induction false} SplitAfterPiece(a: string, r: string)
    requires ',' !in a
    ensures Split(a + r) == [a + Split(r)[0]] + Split(r)[1..]
  {
    if a != [] {
      SplitAfterPiece(a[1..], r);
      assert a[0] in a;
      assert (a + r)[0] == a[0] != ',';
      assert (a + r)[1..] == a[1..] + r;
      var rest := Split(a[1..] + r);
      assert Split(a + r) == [[a[0]] + rest[0]] + rest[1..];
      assert [a[0]] + (a[1..] + Split(r)[0]) == a + Split(r)[0];
    } else {
      assert a + r == r;
      assert a + Split(r)[0] == Split(r)[0];
      assert Split(r) == [Split(r)[0]] + Split(r)[1..];
    }
  }

  /** Joining comma-free pieces and splitting again gives back the pieces. */
  lemma {:induction false} SplitJoin(parts: seq<string>)
    requires |parts| >= 1
    requires forall p :: p in parts ==> ',' !in p
    ensures Split(Join(parts)) == parts
  {
    if |parts| == 1 {
      SplitAfterPiece(parts[0], "");
      assert parts[0] + "" == parts[0];
    } else {
      var tail := Join(parts[1..]);
      SplitJoin(parts[1..]);
      SplitAfterPiece(parts[0], "," + tail);
      assert (parts[0] + ",") + tail == parts[0] + ("," + tail);
      assert Split("," + tail) == [""] + Split(tail) by {
        assert ("," + tail)[0] == ',';
        assert ("," + tail)[1..] == tail;
      }
      assert parts[0] in parts;
      assert Join(parts) == parts[0] + ("," + tail);
      var after := Split("," + tail);
      assert after[0] == "" && after[1..] == parts[1..];
      assert parts[0] + after[0] == parts[0];
      assert parts == [parts[0]] + parts[1..];
    }
  }

  /** A list with a non-empty piece joins to a non-empty string. */
  lemma JoinNonEmpty(parts: seq<string>, k: nat)
    requires k < |parts| && parts[k] != ""
    ensures Join(parts) != ""
  {
  }

  /** `stored ? stored.split(",") : []`: the empty string is the empty list. */
  function ParseList(stored: string): (parts: seq<string>)
    ensures stored == "" <==> parts == []
    ensures forall p :: p in parts ==> ',' !in p
  {
    if stored != "" then Split(stored) else []
  }

  /**
   * A list of comma-free pieces, one of them non-empty, survives the trip
   * through the stored string.
   */
  lemma ParseJoin(parts: seq<string>)
    requires forall p :: p in parts ==> ',' !in p
    requires exists p :: p in parts && p != ""
    ensures ParseList(Join(parts)) == parts
  {
    var p :| p in parts && p != "";
    var k :| 0 <= k < |parts| && parts[k] == p;
    JoinNonEmpty(parts, k);
    SplitJoin(parts);
  }

  // ---------------------------------------------------------------------
  // String(stageNumber)

  predicate IsDigit(c: char)
  {
    '0' <= c <= '9'
  }

  function DigitChar(d: nat): (c: char)
    requires d < 10
    ensures IsDigit(c) && DigitValue(c) == d
  {
    ('0' as int + d) as char
  }

  function DigitValue(c: char): nat
    requires IsDigit(c)
  {
    c as int - '0' as int
  }

  /** Reference reading of a string of decimal digits, most significant first. */
  function DecimalValue(s: string): nat
    requires forall c :: c in s ==> IsDigit(c)
  {
    if s == [] then 0 else 10 * DecimalValue(s[..|s| - 1]) + DigitValue(s[|s| - 1])
  }

  /** Decimal digits of a natural number, most significant first. */
  function NatToDecimal(n: nat): (s: string)
    ensures |s| >= 1
    ensures forall c :: c in s ==> IsDigit(c)
  {
    if n < 10 then [DigitChar(n)] else NatToDecimal(n / 10) + [DigitChar(n % 10)]
  }

  /** Reading the digits back gives the number. */
  lemma {:induction false} NatToDecimalValue(n: nat)
    ensures DecimalValue(NatToDecimal(n)) == n
  {
    var s := NatToDecimal(n);
    if n < 10 {
      assert s[..|s| - 1] == [];
    } else {
      NatToDecimalValue(n / 10);
      assert s[..|s| - 1] == NatToDecimal(n / 10);
    }
  }

  /** `String(n)` for an integer `n`: never empty and never holding a comma. */
  function IntToDecimal(n: int): (s: string)
    ensures s != "" && ',' !in s
    ensures forall c :: c in s[1..] ==> IsDigit(c)
    ensures IsDigit(s[0]) <==> n >= 0
    ensures n >= 0 ==> DecimalValue(s) == n
    ensures n < 0 ==> s[0] == '-' && DecimalValue(s[1..]) == -n
  {
    NatToDecimalValue(if n < 0 then -n else n);
    if n < 0 then
      assert ("-" + NatToDecimal(-n))[1..] == NatToDecimal(-n);
      "-" + NatToDecimal(-n)
    else NatToDecimal(n)
  }

  /** Different stage numbers have different texts, so the `includes` test tells them apart. */
  lemma IntToDecimalInjective(a: int, b: int)
    requires IntToDecimal(a) == IntToDecimal(b)
    ensures a == b
  {
  }

  // ---------------------------------------------------------------------
  // Record updates

  /** No piece occurs twice. */
  predicate Distinct(parts: seq<string>)
  {
    forall i, j :: 0 <= i < j < |parts| ==> parts[i] != parts[j]
  }

  /**
   * `clearedArray.includes(stage)` or else `clearedArray.push(stage)`: the
   * stage is in the result, which extends the list by that stage exactly
   * when it was absent, and a list without repeats stays without repeats.
   */
  function RecordStage(cleared: seq<string>, stage: string): (r: seq<string>)
    ensures stage in r
    ensures |r| == if stage in cleared then |cleared| else |cleared| + 1
    ensures r[..|cleared|] == cleared
    ensures forall p :: p in r ==> p in cleared || p == stage
    ensures Distinct(cleared) ==> Distinct(r)
  {
    if stage in cleared then cleared else cleared + [stage]
  }

  /**
   * The stored `clearedStages` string after a clear of `stage` (a text that
   * `String` can produce: non-empty, without a comma). Read back, it is the
   * old list with the stage added at the end unless it was already there.
   */
  function ClearedAfter(stored: string, stage: string): (after: string)
    requires stage != "" && ',' !in stage
    ensures ParseList(after) == RecordStage(ParseList(stored), stage)
  {
    ParseJoin(RecordStage(ParseList(stored), stage));
    Join(RecordStage(ParseList(stored), stage))
  }

  /** Clearing the same stage a second time leaves the stored list as the first clear left it. */
  lemma ClearStageTwice(stored: string, stage: string)
    requires stage != "" && ',' !in stage
    ensures ClearedAfter(ClearedAfter(stored, stage), stage) == ClearedAfter(stored, stage)
  {
  }

  /** `updateGameSession(id, updates)`: the columns the patch names take its values, the others stay. */
  function ApplyPatch(s: Session, p: SessionPatch): (r: Session)
    ensures r.id == s.id && r.heroName == s.heroName && r.heroPower == s.heroPower
    ensures r.createdAt == s.createdAt
    ensures r.clearedStages == if p.clearedStages.Some? then p.clearedStages.value else s.clearedStages
    ensures r.currentHearts == if p.currentHearts.Some? then p.currentHearts.value else s.currentHearts
    ensures r.totalStars == if p.totalStars.Some? then p.totalStars.value else s.totalStars
    ensures r.completedBingoLines ==
              if p.completedBingoLines.Some? then p.completedBingoLines.value else s.completedBingoLines
  {
    s.(clearedStages := if p.clearedStages.Some? then p.clearedStages.value else s.clearedStages,
       currentHearts := if p.currentHearts.Some? then p.currentHearts.value else s.currentHearts,
       totalStars := if p.totalStars.Some? then p.totalStars.value else s.totalStars,
       completedBingoLines :=
         if p.completedBingoLines.Some? then p.completedBingoLines.value else s.completedBingoLines)
  }

  // ---------------------------------------------------------------------
  // The handlers over the session table

  class SessionStore {
    var sessions: map<string, Session>

    constructor ()
      ensures sessions == map[]
    {
      sessions := map[];
    }

    /**
     * POST /api/game/new. `newId` is the id the database generates and `now`
     * its creation timestamp. Without a hero name or power: 400 and no session.
     */
    method NewGame(heroName: Option<string>, heroPower: Option<string>, newId: string, now: string)
      returns (resp: Response)
      requires newId !in sessions
      modifies this
      ensures !Truthy(heroName) || !Truthy(heroPower) ==> resp == BadRequest && sessions == old(sessions)
      ensures Truthy(heroName) && Truthy(heroPower) ==>
                var s := Session(newId, heroName.value, heroPower.value, "", 3, 0, "", now);
                resp == Json(s) && sessions == old(sessions)[newId := s]
    {
      if !Truthy(heroName) || !Truthy(heroPower) {
        return BadRequest;
      }
      var session := Session(newId, heroName.value, heroPower.value, "", 3, 0, "", now);
      sessions := sessions[newId := session];
      resp := Json(session);
    }

    /** GET /api/game/session/:id. */
    method GetSession(id: string) returns (resp: Response)
      ensures id in sessions ==> resp == Json(sessions[id])
      ensures id !in sessions ==> resp == NotFound
    {
      if id !in sessions {
        return NotFound;
      }
      resp := Json(sessions[id]);
    }

    /**
     * POST /api/game/clear-stage: add the stage to the session's cleared list
     * unless it is there already, and add one star in every case.
     */
    method ClearStage(sessionId: Option<string>, stageNumber: Option<int>) returns (resp: Response)
      modifies this
      ensures !Truthy(sessionId) || !TruthyNumber(stageNumber) ==>
                resp == BadRequest && sessions == old(sessions)
      ensures Truthy(sessionId) && TruthyNumber(stageNumber) && sessionId.value !in old(sessions) ==>
                resp == NotFound && sessions == old(sessions)
      ensures Truthy(sessionId) && TruthyNumber(stageNumber) && sessionId.value in old(sessions) ==>
                var id := sessionId.value;
                var before := old(sessions)[id];
                var stage := IntToDecimal(stageNumber.value);
                var after := before.(clearedStages := ClearedAfter(before.clearedStages, stage),
                                     totalStars := before.totalStars + 1);
                && resp == Json(after)
                && sessions == old(sessions)[id := after]
    {
      if !Truthy(sessionId) || !TruthyNumber(stageNumber) {
        return BadRequest;
      }
      var id := sessionId.value;
      if id !in sessions {
        return NotFound;
      }
      var session := sessions[id];
      var clearedArray := ParseList(session.clearedStages);
      var stage := IntToDecimal(stageNumber.value);
      if stage !in clearedArray {
        clearedArray := clearedArray + [stage];
      }
      var updated := ApplyPatch(session, NoChanges.(clearedStages := Some(Join(clearedArray)),
                                                    totalStars := Some(session.totalStars + 1)));
      sessions := sessions[id := updated];
      resp := Json(updated);
    }

    /**
     * POST /api/game/update: overwrite `currentHearts`, `totalStars` and
     * `completedBingoLines` with those of `hearts`, `stars` and `bingoLines`
     * that the request defines; nothing else changes.
     */
    method Update(sessionId: Option<string>, hearts: Option<int>, stars: Option<int>, bingoLines: Option<string>)
      returns (resp: Response)
      modifies this
      ensures !Truthy(sessionId) ==> resp == BadRequest && sessions == old(sessions)
      ensures Truthy(sessionId) && sessionId.value !in old(sessions) ==>
                resp == NotFound && sessions == old(sessions)
      ensures Truthy(sessionId) && sessionId.value in old(sessions) ==>
                var id := sessionId.value;
                var before := old(sessions)[id];
                && resp.Json? && sessions == old(sessions)[id := resp.session]
                && resp.session.currentHearts == (if hearts.Some? then hearts.value else before.currentHearts)
                && resp.session.totalStars == (if stars.Some? then stars.value else before.totalStars)
                && resp.session.completedBingoLines ==
                     (if bingoLines.Some? then bingoLines.value else before.completedBingoLines)
                && resp.session.(currentHearts := before.currentHearts, totalStars := before.totalStars,
                                 completedBingoLines := before.completedBingoLines) == before
      ensures hearts.None? && stars.None? && bingoLines.None? ==> sessions == old(sessions)
      ensures sessions.Keys == old(sessions).Keys
      ensures forall k :: k in old(sessions) && (sessionId.None? || k != sessionId.value) ==>
                sessions[k] == old(sessions)[k]
    {
      if !Truthy(sessionId) {
        return BadRequest;
      }
      var id := sessionId.value;
      if id !in sessions {
        return NotFound;
      }
      var session := sessions[id];
      var updates := NoChanges;
      if hearts.Some? {
        updates := updates.(currentHearts := hearts);
      }
      if stars.Some? {
        updates := updates.(totalStars := stars);
      }
      if bingoLines.Some? {
        updates := updates.(completedBingoLines := bingoLines);
      }
      var updated := ApplyPatch(session, updates);
      sessions := sessions[id := updated];
      resp := Json(updated);
    }
  }

  /**
   * Two clear-stage requests for the same stage: the cleared list is the one
   * the first request wrote, and the stars went up by two.
   */
  method ClearingTwiceKeepsTheList(store: SessionStore, id: string, stageNumber: int)
    requires id in store.sessions && id != "" && stageNumber != 0
    modifies store
    ensures id in store.sessions
    ensures store.sessions[id].clearedStages
              == ClearedAfter(old(store.sessions[id].clearedStages), IntToDecimal(stageNumber))
    ensures store.sessions[id].totalStars == old(store.sessions[id].totalStars) + 2
  {
    ghost var stored := store.sessions[id].clearedStages;
    var first := store.ClearStage(Some(id), Some(stageNumber));
    var second := store.ClearStage(Some(id), Some(stageNumber));
    ClearStageTwice(stored, IntToDecimal(stageNumber));
  }
}
