/**
 * The helpers of the data-layer service that only compute a value: the CFP
 * endpoint normalisation, the session-type projection, the floor-plan filter,
 * the session and vote-text lookups, the conference id check, and the
 * merge-by-id of favorite counts.
 */
module ServiceHelpers {
  import opened Wrappers
  import opened JavaStrings
  import opened DevoxxModel

  /* ---------------------------------------------------------------------- */
  /* getCfpURL                                                              */
  /* ---------------------------------------------------------------------- */

  /**
   * `getCfpURL` on the conference's configured URL: "" for null, and otherwise
   * the URL with its trailing "/api/" slash dropped, or "api" or "/api" appended,
   * so that the result always ends in "/api".
   */
  function CfpEndpoint(cfpUrl: Option<string>): (r: string)
    ensures cfpUrl.None? ==> r == ""
    ensures cfpUrl.Some? ==> EndsWith(r, "/api")
    ensures cfpUrl.Some? && EndsWith(cfpUrl.value, "/api") ==> r == cfpUrl.value
    ensures cfpUrl.Some? ==>
              StartsWith(r, cfpUrl.value) ||
              (EndsWith(cfpUrl.value, "/api/") && r == cfpUrl.value[..|cfpUrl.value| - 1])
  {
    if cfpUrl.None? then ""
    else
      var u := cfpUrl.value;
      if EndsWith(u, "/api/") then
        assert u[|u| - 5..] == "/api/";
        assert u[|u| - 1] == '/' && !EndsWith(u, "/api");
        assert u[..|u| - 1][|u| - 5..] == "/api";
        u[..|u| - 1]
      else if EndsWith(u, "/api") then u
      else if EndsWith(u, "/") then
        assert (u + "api")[..|u|] == u;
        u + "api"
      else
        assert (u + "/api")[..|u|] == u;
        u + "/api"
  }

  /** Normalising a normalised endpoint changes nothing. */
  lemma CfpEndpointIdempotent(u: string)
    ensures CfpEndpoint(Some(CfpEndpoint(Some(u)))) == CfpEndpoint(Some(u))
  {
  }

  /* ---------------------------------------------------------------------- */
  /* retrieveSessionTypesInternal                                           */
  /* ---------------------------------------------------------------------- */

  /** The names of the first `n` session types: the `dedup` set after `n` steps. */
  function NamesBefore(types: seq<SessionType>, n: nat): set<string>
    requires n <= |types|
  {
    set j | 0 <= j < n :: types[j].name
  }

  /** The type at `i` is the first one with its name. */
  predicate IsFirstOfName(types: seq<SessionType>, i: nat)
    requires i < |types|
  {
    types[i].name !in NamesBefore(types, i)
  }

  lemma NamesBeforeStep(types: seq<SessionType>, n: nat)
    requires n < |types|
    ensures NamesBefore(types, n + 1) == NamesBefore(types, n) + {types[n].name}
  {
  }

  /**
   * The session types kept from the first `n`: each first occurrence of a name,
   * unless that first occurrence is a pause. The kept list has no pause and no
   * two entries with the same name.
   */
  function KeptTypes(types: seq<SessionType>, n: nat): (r: seq<SessionType>)
    requires n <= |types|
    ensures forall k :: 0 <= k < |r| ==> !r[k].pause
    ensures forall k :: 0 <= k < |r| ==> r[k].name in NamesBefore(types, n)
    ensures forall k, l :: 0 <= k < l < |r| ==> r[k].name != r[l].name
  {
    if n == 0 then []
    else
      var prev := KeptTypes(types, n - 1);
      NamesBeforeStep(types, n - 1);
      if IsFirstOfName(types, n - 1) && !types[n - 1].pause then prev + [types[n - 1]] else prev
  }

  /**
   * The loop of `retrieveSessionTypesInternal`: a `HashSet` of the names seen so
   * far and a list of the kept types.
   */
  method DedupSessionTypes(types: seq<SessionType>) returns (kept: seq<SessionType>)
    ensures kept == KeptTypes(types, |types|)
  {
    var dedup: set<string> := {};
    kept := [];
    var i := 0;
    while i < |types|
      invariant 0 <= i <= |types|
      invariant dedup == NamesBefore(types, i)
      invariant kept == KeptTypes(types, i)
    {
      var t := types[i];
      NamesBeforeStep(types, i);
      if t.name !in dedup {
        dedup := dedup + {t.name};
        if !t.pause {
          kept := kept + [t];
        }
      } else {
        dedup := dedup + {t.name};
      }
      i := i + 1;
    }
  }

  /** A type is kept exactly when it is the first of its name and not a pause. */
  lemma {:induction false} KeptTypesMembers(types: seq<SessionType>, n: nat, t: SessionType)
    requires n <= |types|
    ensures t in KeptTypes(types, n) <==>
              exists i :: 0 <= i < n && types[i] == t && IsFirstOfName(types, i) && !t.pause
  {
    if n > 0 {
      KeptTypesMembers(types, n - 1, t);
    }
  }

  /** Kept types appear in the order of their first occurrence: the list only grows at the end. */
  lemma {:induction false} KeptTypesPrefix(types: seq<SessionType>, n: nat, m: nat)
    requires n <= m <= |types|
    ensures KeptTypes(types, n) <= KeptTypes(types, m)
  {
    if n < m {
      KeptTypesPrefix(types, n, m - 1);
    }
  }

  /**
   * The name is recorded before the pause check: a pause that is the first of
   * its name suppresses every later type of that name.
   */
  lemma PauseShadowsName(types: seq<SessionType>, i: nat)
    requires i < |types| && IsFirstOfName(types, i) && types[i].pause
    ensures forall t :: t in KeptTypes(types, |types|) ==> t.name != types[i].name
  {
    forall t | t in KeptTypes(types, |types|)
      ensures t.name != types[i].name
    {
      KeptTypesMembers(types, |types|, t);
      var j :| 0 <= j < |types| && types[j] == t && IsFirstOfName(types, j) && !t.pause;
      FirstOfNameUnique(types, i, j);
    }
  }

  /** Two first occurrences of the same name are the same occurrence. */
  lemma FirstOfNameUnique(types: seq<SessionType>, i: nat, j: nat)
    requires i < |types| && j < |types|
    requires IsFirstOfName(types, i) && IsFirstOfName(types, j)
    ensures types[i].name == types[j].name ==> i == j
  {
    if i < j {
      assert types[i].name in NamesBefore(types, j);
    } else if j < i {
      assert types[j].name in NamesBefore(types, i);
    }
  }

  /* ---------------------------------------------------------------------- */
  /* retrieveExhibitionMapsInternal                                         */
  /* ---------------------------------------------------------------------- */

  predicate IsSecure(f: Floor) {
    StartsWith(f.imageUrl, "https")
  }

  /**
   * The floor plans whose image URL starts with "https", in their order: no
   * more of them than plans, and each one secure (`SecureFloorsMembers` adds
   * that every secure plan is kept).
   */
  function SecureFloors(floors: seq<Floor>): (r: seq<Floor>)
    ensures |r| <= |floors|
    ensures forall k :: 0 <= k < |r| ==> IsSecure(r[k])
  {
    if floors == [] then []
    else (if IsSecure(floors[0]) then [floors[0]] else []) + SecureFloors(floors[1..])
  }

  /** The kept floor plans are exactly the secure ones. */
  lemma {:induction false} SecureFloorsMembers(floors: seq<Floor>)
    ensures forall f :: f in SecureFloors(floors) <==> f in floors && IsSecure(f)
  {
    if floors != [] {
      SecureFloorsMembers(floors[1..]);
      assert floors == [floors[0]] + floors[1..];
    }
  }

  /** Filtering distributes over concatenation, so the order of the floors is kept. */
  lemma {:induction false} SecureFloorsAppend(a: seq<Floor>, b: seq<Floor>)
    ensures SecureFloors(a + b) == SecureFloors(a) + SecureFloors(b)
  {
    if a != [] {
      assert (a + b)[1..] == a[1..] + b;
      SecureFloorsAppend(a[1..], b);
    } else {
      assert a + b == b;
    }
  }

  /** The filtering loop of `retrieveExhibitionMapsInternal`'s background task. */
  method SelectSecureFloors(plans: seq<Floor>) returns (floors: seq<Floor>)
    ensures floors == SecureFloors(plans)
  {
    floors := [];
    var i := 0;
    while i < |plans|
      invariant 0 <= i <= |plans|
      invariant floors == SecureFloors(plans[..i])
    {
      assert plans[..i + 1] == plans[..i] + [plans[i]];
      SecureFloorsAppend(plans[..i], [plans[i]]);
      if IsSecure(plans[i]) {
        floors := floors + [plans[i]];
      }
      i := i + 1;
    }
    assert plans[..|plans|] == plans;
  }

  /* ---------------------------------------------------------------------- */
  /* findSession                                                            */
  /* ---------------------------------------------------------------------- */

  /** The session has a talk with this id. */
  predicate HasTalkId(s: Session, uuid: string) {
    s.talk.Some? && s.talk.value.id == uuid
  }

  /** `findSession(uuid)`: the first session whose talk has the id, or none. */
  function FindSession(sessions: seq<Session>, uuid: string): (r: Option<Session>)
    ensures r.Some? ==> HasTalkId(r.value, uuid) && r.value in sessions
  {
    if sessions == [] then None
    else if HasTalkId(sessions[0], uuid) then Some(sessions[0])
    else FindSession(sessions[1..], uuid)
  }

  /** `findSession` finds a session exactly when one has the id, and then the first such session. */
  lemma {:induction false} FindSessionIsFirst(sessions: seq<Session>, uuid: string)
    ensures FindSession(sessions, uuid).None? <==> forall i :: 0 <= i < |sessions| ==> !HasTalkId(sessions[i], uuid)
    ensures forall i :: (0 <= i < |sessions| && HasTalkId(sessions[i], uuid) &&
                         forall j :: 0 <= j < i ==> !HasTalkId(sessions[j], uuid)) ==> FindSession(sessions, uuid) == Some(sessions[i])
  {
    if sessions != [] && !HasTalkId(sessions[0], uuid) {
      FindSessionIsFirst(sessions[1..], uuid);
      assert forall i :: 1 <= i < |sessions| ==> sessions[i] == sessions[1..][i - 1];
    }
  }

  /* ---------------------------------------------------------------------- */
  /* retrieveVoteTexts                                                      */
  /* ---------------------------------------------------------------------- */

  /**
   * The texts the vote-texts handler puts in the list: those of the first rating
   * entry with the requested value, and none when no entry has it.
   */
  function VoteTexts<D>(texts: seq<Rating<D>>, rating: int): (r: seq<D>)
    ensures (forall i :: 0 <= i < |texts| ==> texts[i].rating != rating) ==> r == []
    ensures forall i :: (0 <= i < |texts| && texts[i].rating == rating &&
                         forall j :: 0 <= j < i ==> texts[j].rating != rating) ==> r == texts[i].data
  {
    if texts == [] then []
    else if texts[0].rating == rating then texts[0].data
    else
      var rest := texts[1..];
      assert forall i :: 1 <= i < |texts| ==> texts[i] == rest[i - 1];
      VoteTexts(rest, rating)
  }

  /* ---------------------------------------------------------------------- */
  /* isNumber                                                               */
  /* ---------------------------------------------------------------------- */

  const INT_MAX: int := 0x7fff_ffff

  predicate IsDigit(c: char) {
    '0' <= c <= '9'
  }

  predicate AllDigits(s: string) {
    forall k :: 0 <= k < |s| ==> IsDigit(s[k])
  }

  /** The value of a string of decimal digits. */
  function DigitsValue(s: string): nat
    requires AllDigits(s)
  {
    if s == [] then 0 else 10 * DigitsValue(s[..|s| - 1]) + (s[|s| - 1] as int - '0' as int)
  }

  /**
   * `isNumber`: whether `Integer.parseInt` accepts the string, that is an
   * optional sign followed by at least one (ASCII) digit, with a value that fits
   * in a 32-bit signed int. So nothing that is not a sign or a digit is ever a
   * number, and neither is a lone sign.
   */
  function IsNumber(s: string): (r: bool)
    ensures r ==> |s| >= 1 && (IsDigit(s[0]) || ((s[0] == '-' || s[0] == '+') && |s| >= 2))
    ensures r ==> forall k :: 1 <= k < |s| ==> IsDigit(s[k])
  {
    if s == [] then false
    else
      var negative := s[0] == '-';
      var digits := if s[0] == '-' || s[0] == '+' then s[1..] else s;
      assert s[0] == '-' || s[0] == '+' ==> forall k :: 1 <= k < |s| ==> s[k] == digits[k - 1];
      digits != [] && AllDigits(digits) &&
      (if negative then DigitsValue(digits) <= INT_MAX + 1 else DigitsValue(digits) <= INT_MAX)
  }

  /** The decimal digits of a natural number, without leading zeros. */
  function DecimalDigits(n: nat): (r: string)
    ensures r != [] && AllDigits(r)
  {
    var d := [('0' as int + n % 10) as char];
    if n < 10 then d else DecimalDigits(n / 10) + d
  }

  lemma {:induction false} DecimalDigitsValue(n: nat)
    ensures DigitsValue(DecimalDigits(n)) == n
  {
    var r := DecimalDigits(n);
    if n >= 10 {
      DecimalDigitsValue(n / 10);
      assert r[..|r| - 1] == DecimalDigits(n / 10);
    }
  }

  /** `Integer.toString(n)` */
  function DecimalString(n: int): string {
    if n < 0 then "-" + DecimalDigits(-n) else DecimalDigits(n)
  }

  /** Every 32-bit integer written in decimal is a number. */
  lemma DecimalIsNumber(n: int)
    requires -(INT_MAX + 1) <= n <= INT_MAX
    ensures IsNumber(DecimalString(n))
  {
    var s := DecimalString(n);
    if n < 0 {
      DecimalDigitsValue(-n);
      assert s[1..] == DecimalDigits(-n);
    } else {
      DecimalDigitsValue(n);
    }
  }

  /** No integer outside the 32-bit range, written in decimal, is a number. */
  lemma OutOfRangeIsNotNumber(n: int)
    requires n > INT_MAX || n < -(INT_MAX + 1)
    ensures !IsNumber(DecimalString(n))
  {
    var s := DecimalString(n);
    if n < 0 {
      DecimalDigitsValue(-n);
      assert s[1..] == DecimalDigits(-n);
    } else {
      DecimalDigitsValue(n);
      assert IsDigit(s[0]);
    }
  }

  /** An integer written in decimal is a number exactly when it fits in 32 bits. */
  lemma DecimalNumberRange(n: int)
    ensures IsNumber(DecimalString(n)) <==> -(INT_MAX + 1) <= n <= INT_MAX
  {
    if -(INT_MAX + 1) <= n <= INT_MAX {
      DecimalIsNumber(n);
    } else {
      OutOfRangeIsNotNumber(n);
    }
  }

  /* ---------------------------------------------------------------------- */
  /* refreshFavorites: merge by id                                          */
  /* ---------------------------------------------------------------------- */

  /** The ids of the favorite records, in order. */
  function Ids(list: seq<Favorite>): (r: seq<string>)
    ensures |r| == |list| && forall i :: 0 <= i < |list| ==> r[i] == list[i].id
  {
    seq(|list|, i requires 0 <= i < |list| => list[i].id)
  }

  /** The index of the first occurrence of `x`, or `|s|` when there is none. */
  function IndexOf(s: seq<string>, x: string): (k: nat)
    ensures k <= |s|
    ensures forall j :: 0 <= j < k ==> s[j] != x
    ensures k < |s| ==> s[k] == x
    ensures k == |s| <==> x !in s
  {
    if s == [] then 0 else if s[0] == x then 0 else 1 + IndexOf(s[1..], x)
  }

  /**
   * One step of the merge: the first record with the fetched id gets the fetched
   * count; a fetched id that is not there yet is appended. So every id stays at
   * its position, the fetched id is present afterwards, and the list grows only
   * for an unseen id, by exactly that id.
   */
  function MergeOne(list: seq<Favorite>, f: Favorite): (r: seq<Favorite>)
    ensures Ids(list) <= Ids(r)
    ensures f.id in Ids(r)
    ensures |r| == |list| || Ids(r) == Ids(list) + [f.id]
    ensures |r| > |list| ==> f.id !in Ids(list)
  {
    var k := IndexOf(Ids(list), f.id);
    if k < |list| then
      var r := list[k := list[k].(favs := f.favs)];
      assert Ids(r) == Ids(list);
      r
    else
      var r := list + [f];
      assert Ids(r) == Ids(list) + [f.id];
      r
  }

  /**
   * The favorites list after the success handler of `refreshFavorites` has merged
   * the fetched records in order. The list never shrinks, records keep their
   * position and id, and every fetched id is present afterwards.
   */
  function MergeFavorites(list: seq<Favorite>, fetched: seq<Favorite>): (r: seq<Favorite>)
    ensures |r| >= |list|
    ensures forall i :: 0 <= i < |list| ==> r[i].id == list[i].id
    ensures forall k :: 0 <= k < |fetched| ==> fetched[k].id in Ids(r)
    ensures forall i :: |list| <= i < |r| ==> r[i].id !in Ids(list)
    decreases |fetched|
  {
    if fetched == [] then list
    else
      var prev := MergeFavorites(list, fetched[..|fetched| - 1]);
      var f := fetched[|fetched| - 1];
      var r := MergeOne(prev, f);
      assert forall k :: 0 <= k < |fetched| - 1 ==> fetched[k] == fetched[..|fetched| - 1][k];
      r
  }

  /** Merging one more fetched record is one more merge step. */
  lemma MergeFavoritesStep(list: seq<Favorite>, fetched: seq<Favorite>, n: nat)
    requires n < |fetched|
    ensures MergeFavorites(list, fetched[..n + 1]) == MergeOne(MergeFavorites(list, fetched[..n]), fetched[n])
  {
    assert fetched[..n + 1][..n] == fetched[..n];
  }

  /** The count in the last fetched record with this id, if any. */
  function LastFavs(fetched: seq<Favorite>, id: string): Option<int>
  {
    if fetched == [] then None
    else if fetched[|fetched| - 1].id == id then Some(fetched[|fetched| - 1].favs)
    else LastFavs(fetched[..|fetched| - 1], id)
  }

  /** The record at `i` is the first one with its id. */
  predicate IsFirstOfId(list: seq<Favorite>, i: nat)
    requires i < |list|
  {
    IndexOf(Ids(list), list[i].id) == i
  }

  /** `list` with the first record of every fetched id set to that id's last fetched count. */
  function Refreshed(list: seq<Favorite>, fetched: seq<Favorite>): (r: seq<Favorite>)
    ensures |r| == |list|
  {
    seq(|list|, i requires 0 <= i < |list| =>
      if IsFirstOfId(list, i) && LastFavs(fetched, list[i].id).Some?
      then list[i].(favs := LastFavs(fetched, list[i].id).value)
      else list[i])
  }

  /** The list already holds the outcome of merging `fetched`. */
  predicate Absorbs(list: seq<Favorite>, fetched: seq<Favorite>) {
    && (forall k :: 0 <= k < |fetched| ==> fetched[k].id in Ids(list))
    && forall i :: 0 <= i < |list| && IsFirstOfId(list, i) && LastFavs(fetched, list[i].id).Some? ==>
         list[i].favs == LastFavs(fetched, list[i].id).value
  }

  lemma LastFavsStep(fetched: seq<Favorite>, id: string)
    requires fetched != []
    ensures LastFavs(fetched, id) ==
              if fetched[|fetched| - 1].id == id then Some(fetched[|fetched| - 1].favs)
              else LastFavs(fetched[..|fetched| - 1], id)
  {
  }

  /**
   * The fetched ids that are not on the list, each once, in the order in which
   * they are first fetched: the ids the merge appends.
   */
  function NewIds(list: seq<Favorite>, fetched: seq<Favorite>): (r: seq<string>)
    ensures forall j :: 0 <= j < |r| ==> r[j] !in Ids(list) && LastFavs(fetched, r[j]).Some?
    ensures forall j, j' :: 0 <= j < j' < |r| ==> r[j] != r[j']
    ensures forall k :: 0 <= k < |fetched| && fetched[k].id !in Ids(list) ==> fetched[k].id in r
    decreases |fetched|
  {
    if fetched == [] then []
    else
      var g, f := fetched[..|fetched| - 1], fetched[|fetched| - 1];
      var prev := NewIds(list, g);
      assert forall x :: LastFavs(g, x).Some? ==> LastFavs(fetched, x).Some?;
      assert forall k :: 0 <= k < |g| ==> g[k] == fetched[k];
      if f.id in Ids(list) || f.id in prev then prev else prev + [f.id]
  }

  /** The records the merge appends: one per new id, with that id's last fetched count. */
  function Appended(list: seq<Favorite>, fetched: seq<Favorite>): seq<Favorite> {
    var n := NewIds(list, fetched);
    seq(|n|, j requires 0 <= j < |n| => Favorite(n[j], LastFavs(fetched, n[j]).GetOr(0)))
  }

  /** The ids after the merge are the old ones followed by the new ones. */
  lemma {:induction false} MergeIds(list: seq<Favorite>, fetched: seq<Favorite>)
    ensures Ids(MergeFavorites(list, fetched)) == Ids(list) + NewIds(list, fetched)
    decreases |fetched|
  {
    if fetched != [] {
      var g, f := fetched[..|fetched| - 1], fetched[|fetched| - 1];
      MergeIds(list, g);
      var p := MergeFavorites(list, g);
      var m := MergeOne(p, f);
      assert MergeFavorites(list, fetched) == m;
      if f.id in Ids(p) {
        assert |Ids(m)| == |Ids(p)|;
        assert Ids(m) == Ids(p);
      }
    }
  }

  /**
   * A record on the list that is not the first of its id, or whose id was not
   * fetched, is left as it is by the merge.
   */
  lemma {:induction false} MergeKeepsOthers(list: seq<Favorite>, fetched: seq<Favorite>, i: nat)
    requires i < |list|
    requires !IsFirstOfId(list, i) || LastFavs(fetched, list[i].id).None?
    ensures MergeFavorites(list, fetched)[i] == list[i]
    decreases |fetched|
  {
    if fetched != [] {
      var g, f := fetched[..|fetched| - 1], fetched[|fetched| - 1];
      LastFavsStep(fetched, list[i].id);
      MergeKeepsOthers(list, g, i);
      var p := MergeFavorites(list, g);
      MergeIds(list, g);
      IndexOfPrefix(Ids(list), NewIds(list, g), list[i].id);
      MergeOneShape(p, f);
      assert MergeFavorites(list, fetched) == MergeOne(p, f);
    }
  }

  /** The index of an id that is not in `s` is found in `t`, after `s`. */
  lemma IndexOfAfter(s: seq<string>, t: seq<string>, x: string)
    requires x !in s
    ensures IndexOf(s + t, x) == |s| + IndexOf(t, x)
  {
    var k := IndexOf(t, x);
    assert forall j :: 0 <= j < |s| ==> (s + t)[j] == s[j];
    assert forall j :: |s| <= j < |s| + |t| ==> (s + t)[j] == t[j - |s|];
    if k < |t| {
      assert (s + t)[|s| + k] == x;
    } else {
      assert x !in s + t;
    }
  }

  /**
   * The merged list is the old one with the first record of every fetched id
   * refreshed to that id's last fetched count, followed by one record per new
   * fetched id, in the order of first fetch, with its last fetched count.
   */
  lemma MergeIsRefreshedThenAppended(list: seq<Favorite>, fetched: seq<Favorite>)
    ensures MergeFavorites(list, fetched) == Refreshed(list, fetched) + Appended(list, fetched)
  {
    var m, n := MergeFavorites(list, fetched), NewIds(list, fetched);
    var want := Refreshed(list, fetched) + Appended(list, fetched);
    MergeIds(list, fetched);
    MergeAbsorbs(list, fetched);
    assert |m| == |want|;
    forall i | 0 <= i < |m|
      ensures m[i] == want[i]
    {
      if i < |list| {
        if IsFirstOfId(list, i) && LastFavs(fetched, list[i].id).Some? {
          IndexOfPrefix(Ids(list), n, list[i].id);
          assert IsFirstOfId(m, i);
        } else {
          MergeKeepsOthers(list, fetched, i);
        }
      } else {
        IndexOfAfter(Ids(list), n, n[i - |list|]);
        assert IsFirstOfId(m, i);
      }
    }
  }

  /** No id is new when every fetched id is already on the list. */
  lemma NoNewIds(list: seq<Favorite>, fetched: seq<Favorite>)
    requires forall k :: 0 <= k < |fetched| ==> fetched[k].id in Ids(list)
    ensures NewIds(list, fetched) == []
  {
    var n := NewIds(list, fetched);
    if n != [] {
      var x := n[0];
      LastFavsFetched(fetched, x);
    }
  }

  /** An id with a last fetched count was fetched. */
  lemma {:induction false} LastFavsFetched(fetched: seq<Favorite>, id: string)
    requires LastFavs(fetched, id).Some?
    ensures exists k :: 0 <= k < |fetched| && fetched[k].id == id
    decreases |fetched|
  {
    var g := fetched[..|fetched| - 1];
    if fetched[|fetched| - 1].id != id {
      LastFavsFetched(g, id);
      var k :| 0 <= k < |g| && g[k].id == id;
      assert fetched[k] == g[k];
    }
  }

  /** When every fetched id is already present, merging only refreshes counts in place. */
  lemma MergeOfKnownIds(list: seq<Favorite>, fetched: seq<Favorite>)
    requires forall k :: 0 <= k < |fetched| ==> fetched[k].id in Ids(list)
    ensures MergeFavorites(list, fetched) == Refreshed(list, fetched)
  {
    MergeIsRefreshedThenAppended(list, fetched);
    NoNewIds(list, fetched);
    assert Refreshed(list, fetched) + [] == Refreshed(list, fetched);
  }

  /** A list that absorbs `fetched` is left unchanged by merging it. */
  lemma AbsorbedMergeIsIdentity(list: seq<Favorite>, fetched: seq<Favorite>)
    requires Absorbs(list, fetched)
    ensures MergeFavorites(list, fetched) == list
  {
    MergeOfKnownIds(list, fetched);
    assert Refreshed(list, fetched) == list;
  }

  lemma IndexOfPrefix(s: seq<string>, t: seq<string>, x: string)
    requires x in s
    ensures IndexOf(s + t, x) == IndexOf(s, x)
  {
    var k := IndexOf(s, x);
    assert (s + t)[k] == x;
    assert forall j :: 0 <= j < k ==> (s + t)[j] == s[j];
  }

  /**
   * The shape of one merge step: the fetched record sits at the first index of
   * its id (the old one, or the new last slot) and every other record is kept.
   */
  lemma MergeOneShape(prev: seq<Favorite>, f: Favorite)
    ensures var m, k := MergeOne(prev, f), IndexOf(Ids(prev), f.id);
            && k < |m| && m[k] == f && IndexOf(Ids(m), f.id) == k
            && (|m| == |prev| || (|m| == |prev| + 1 && k == |prev|))
            && (forall i :: 0 <= i < |prev| && i != k ==> m[i] == prev[i])
            && (forall i :: 0 <= i < |prev| ==> IndexOf(Ids(m), prev[i].id) == IndexOf(Ids(prev), prev[i].id))
  {
    var m, k := MergeOne(prev, f), IndexOf(Ids(prev), f.id);
    if k < |prev| {
      assert Ids(m) == Ids(prev);
    } else {
      assert Ids(m) == Ids(prev) + [f.id];
      forall i | 0 <= i < |prev|
        ensures IndexOf(Ids(m), prev[i].id) == IndexOf(Ids(prev), prev[i].id)
      {
        IndexOfPrefix(Ids(prev), [f.id], prev[i].id);
      }
      IndexOfLast(Ids(prev), f.id);
    }
  }

  lemma IndexOfLast(s: seq<string>, x: string)
    requires x !in s
    ensures IndexOf(s + [x], x) == |s|
  {
    assert (s + [x])[|s|] == x;
    assert forall j :: 0 <= j < |s| ==> (s + [x])[j] == s[j];
  }

  /** A merge step extends absorption from the earlier records to the fetched one too. */
  lemma MergeOneAbsorbs(prev: seq<Favorite>, fetched: seq<Favorite>)
    requires fetched != []
    requires Absorbs(prev, fetched[..|fetched| - 1])
    ensures Absorbs(MergeOne(prev, fetched[|fetched| - 1]), fetched)
  {
    var g, f := fetched[..|fetched| - 1], fetched[|fetched| - 1];
    var m := MergeOne(prev, f);
    var ids, mids := Ids(prev), Ids(m);
    assert ids <= mids;
    forall j | 0 <= j < |fetched|
      ensures fetched[j].id in mids
    {
      if j < |g| {
        assert fetched[j] == g[j];
        assert g[j].id in ids;
      }
    }
    MergeOneKeepsCounts(prev, fetched);
  }

  /** After a merge step, the first record of each id carries its last fetched count. */
  lemma MergeOneKeepsCounts(prev: seq<Favorite>, fetched: seq<Favorite>)
    requires fetched != []
    requires Absorbs(prev, fetched[..|fetched| - 1])
    ensures var m := MergeOne(prev, fetched[|fetched| - 1]);
      forall i :: 0 <= i < |m| && IsFirstOfId(m, i) && LastFavs(fetched, m[i].id).Some? ==>
        m[i].favs == LastFavs(fetched, m[i].id).value
  {
    var g, f := fetched[..|fetched| - 1], fetched[|fetched| - 1];
    var m, k := MergeOne(prev, f), IndexOf(Ids(prev), f.id);
    MergeOneShape(prev, f);
    forall i | 0 <= i < |m| && IsFirstOfId(m, i) && LastFavs(fetched, m[i].id).Some?
      ensures m[i].favs == LastFavs(fetched, m[i].id).value
    {
      LastFavsStep(fetched, m[i].id);
      if i != k {
        assert m[i] == prev[i];
        assert IsFirstOfId(prev, i);
      }
    }
  }

  /** The merged list absorbs what was merged into it. */
  lemma {:induction false} MergeAbsorbs(list: seq<Favorite>, fetched: seq<Favorite>)
    ensures Absorbs(MergeFavorites(list, fetched), fetched)
    decreases |fetched|
  {
    if fetched != [] {
      var g := fetched[..|fetched| - 1];
      var f := fetched[|fetched| - 1];
      MergeAbsorbs(list, g);
      assert MergeFavorites(list, fetched) == MergeOne(MergeFavorites(list, g), f);
      MergeOneAbsorbs(MergeFavorites(list, g), fetched);
    }
  }

  /** Repeating the merge with the same fetched records changes nothing. */
  lemma MergeIdempotent(list: seq<Favorite>, fetched: seq<Favorite>)
    ensures MergeFavorites(MergeFavorites(list, fetched), fetched) == MergeFavorites(list, fetched)
  {
    MergeAbsorbs(list, fetched);
    AbsorbedMergeIsIdentity(MergeFavorites(list, fetched), fetched);
  }

  /** After the merge, the first record of every fetched id carries that id's last fetched count. */
  lemma MergeUpdatesCounts(list: seq<Favorite>, fetched: seq<Favorite>, i: nat)
    requires i < |MergeFavorites(list, fetched)|
    requires IsFirstOfId(MergeFavorites(list, fetched), i)
    requires LastFavs(fetched, MergeFavorites(list, fetched)[i].id).Some?
    ensures MergeFavorites(list, fetched)[i].favs == LastFavs(fetched, MergeFavorites(list, fetched)[i].id).value
  {
    MergeAbsorbs(list, fetched);
  }
}
