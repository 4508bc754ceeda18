/**
 * The sponsor's badge screen: scanning a badge adds it to the sponsor's list
 * unless its QR code had no badge id or the badge is already there, and the
 * screen shows the badges of the signed-in sponsor.
 */
module SponsorBadges {
  import opened Wrappers
  import opened Sponsors

  /**
   * A badge scanned by a sponsor. The sponsor is a value here: sponsors are
   * compared field by field (`EqualsIsFieldwise`).
   */
  datatype SponsorBadge = SponsorBadge(
    badgeId: Option<string>,
    sponsor: Option<SponsorFields>,
    firstName: Option<string>,
    lastName: Option<string>,
    company: Option<string>,
    email: Option<string>,
    details: Option<string>)

  /** What the scan leads to: a "bad QR" toast, an "already scanned" toast, or the new badge's view. */
  datatype ScanOutcome = BadQr | AlreadyScanned | Added

  /** The entry holds a badge whose id is `id`. */
  predicate HasBadgeId(b: Option<SponsorBadge>, id: string) {
    b.Some? && b.value.badgeId == Some(id)
  }

  /** Some entry of the list holds a badge with this id. */
  predicate Scanned(items: seq<Option<SponsorBadge>>, id: string) {
    exists i :: 0 <= i < |items| && HasBadgeId(items[i], id)
  }

  /**
   * The list after scanning `badge` for `sponsor`: it grows by at most one
   * entry, exactly when the badge has an id not yet on the list, and the new
   * entry is the badge carrying the sponsor.
   */
  function AddedBadges(items: seq<Option<SponsorBadge>>, sponsor: SponsorFields, badge: SponsorBadge): (r: seq<Option<SponsorBadge>>)
    ensures items <= r && |r| <= |items| + 1
    ensures |r| == |items| + 1 <==> badge.badgeId.Some? && !Scanned(items, badge.badgeId.value)
    ensures |r| == |items| + 1 ==> r[|items|] == Some(badge.(sponsor := Some(sponsor)))
  {
    if badge.badgeId.None? || Scanned(items, badge.badgeId.value) then items
    else items + [Some(badge.(sponsor := Some(sponsor)))]
  }

  /** No two entries hold badges with the same id. */
  predicate DistinctIds(items: seq<Option<SponsorBadge>>) {
    forall i, j :: 0 <= i < j < |items| && items[i].Some? && items[i].value.badgeId.Some? ==>
      !HasBadgeId(items[j], items[i].value.badgeId.value)
  }

  /** The badge list as the data client exposes it; scanning adds to it in place. */
  class BadgeList {
    var items: seq<Option<SponsorBadge>>

    constructor (items: seq<Option<SponsorBadge>>)
      ensures this.items == items
    {
      this.items := items;
    }
  }

  /**
   * `addBadge`: a badge without an id is refused, one whose id is already on
   * the list is reported, and any other badge gets the sponsor and is added.
   */
  method AddBadge(sponsor: SponsorFields, badges: BadgeList, badge: SponsorBadge) returns (outcome: ScanOutcome)
    modifies badges
    ensures badges.items == AddedBadges(old(badges.items), sponsor, badge)
    ensures outcome == BadQr <==> badge.badgeId.None?
    ensures outcome == AlreadyScanned <==> badge.badgeId.Some? && Scanned(old(badges.items), badge.badgeId.value)
  {
    if badge.badgeId.None? {
      return BadQr;
    }
    var id := badge.badgeId.value;
    var found := false;
    var i := 0;
    while i < |badges.items|
      invariant 0 <= i <= |badges.items|
      invariant found <==> Scanned(badges.items[..i], id)
      invariant badges.items == old(badges.items)
    {
      assert badges.items[..i + 1] == badges.items[..i] + [badges.items[i]];
      var b := badges.items[i];
      if b.Some? && b.value.badgeId.Some? && b.value.badgeId.value == id {
        found := true;
        assert HasBadgeId(badges.items[..i + 1][i], id);
        i := i + 1;
        break;
      }
      assert !HasBadgeId(badges.items[i], id);
      i := i + 1;
    }
    
    if found {
      ScannedPrefix(badges.items, i, id);
      return AlreadyScanned;
    }
    assert badges.items[..|badges.items|] == badges.items;
    badges.items := badges.items + [Some(badge.(sponsor := Some(sponsor)))];
    outcome := Added;
  }

  /** A badge found in a prefix is on the list. */
  lemma ScannedPrefix(items: seq<Option<SponsorBadge>>, n: nat, id: string)
    requires n <= |items| && Scanned(items[..n], id)
    ensures Scanned(items, id)
  {
    var i :| 0 <= i < n && HasBadgeId(items[..n][i], id);
    assert items[i] == items[..n][i];
  }

  /** Scanning never adds a second badge with an id already on the list. */
  lemma {:induction false} AddKeepsIdsDistinct(items: seq<Option<SponsorBadge>>, sponsor: SponsorFields, badge: SponsorBadge)
    requires DistinctIds(items)
    ensures DistinctIds(AddedBadges(items, sponsor, badge))
  {
    var r := AddedBadges(items, sponsor, badge);
    if r != items {
      var id := badge.badgeId.value;
      forall i, j | 0 <= i < j < |r| && r[i].Some? && r[i].value.badgeId.Some?
        ensures !HasBadgeId(r[j], r[i].value.badgeId.value)
      {
        if j == |items| {
          assert r[j].value.badgeId == Some(id);
          assert r[i] == items[i] && !HasBadgeId(items[i], id);
        } else {
          assert r[i] == items[i] && r[j] == items[j];
        }
      }
    }
  }

  /** Scanning the same badge twice adds it once. */
  lemma AddTwiceIsAddOnce(items: seq<Option<SponsorBadge>>, sponsor: SponsorFields, badge: SponsorBadge)
    ensures AddedBadges(AddedBadges(items, sponsor, badge), sponsor, badge) == AddedBadges(items, sponsor, badge)
  {
    var once := AddedBadges(items, sponsor, badge);
    if badge.badgeId.Some? && once != items {
      assert HasBadgeId(once[|items|], badge.badgeId.value);
    }
  }

  /** The filter of the list view: a badge of this sponsor (compared by field values). */
  predicate Shown(sponsor: SponsorFields, b: Option<SponsorBadge>) {
    b.Some? && b.value.sponsor.Some? && b.value.sponsor.value == sponsor
  }

  /**
   * The badges the screen lists, in the order of the list: exactly the
   * badges on the list that carry this sponsor.
   */
  function Displayed(items: seq<Option<SponsorBadge>>, sponsor: SponsorFields): (r: seq<SponsorBadge>)
    ensures |r| <= |items|
    ensures forall b :: b in r <==> Some(b) in items && b.sponsor == Some(sponsor)
  {
    if items == [] then []
    else
      var prev := Displayed(items[..|items| - 1], sponsor);
      var last := items[|items| - 1];
      assert items == items[..|items| - 1] + [last];
      if Shown(sponsor, last) then prev + [last.value] else prev
  }

  /** The screen lists one more entry after the others exactly when it is a badge of the sponsor. */
  lemma DisplayedAppend(items: seq<Option<SponsorBadge>>, x: Option<SponsorBadge>, sponsor: SponsorFields)
    ensures Displayed(items + [x], sponsor) ==
      Displayed(items, sponsor) + (if Shown(sponsor, x) then [x.value] else [])
  {
    assert (items + [x])[..|items|] == items;
  }

  /**
   * Each badge of the sponsor is listed as many times as it is on the list,
   * and no other badge is listed.
   */
  lemma {:induction false} DisplayedCounts(items: seq<Option<SponsorBadge>>, sponsor: SponsorFields, b: SponsorBadge)
    ensures multiset(Displayed(items, sponsor))[b] ==
      if b.sponsor == Some(sponsor) then multiset(items)[Some(b)] else 0
  {
    if items != [] {
      var init, last := items[..|items| - 1], items[|items| - 1];
      DisplayedCounts(init, sponsor, b);
      assert items == init + [last];
      DisplayedAppend(init, last, sponsor);
    }
  }

  /**
   * A badge the sponsor adds appears at the end of what the screen shows, and
   * nothing else changes there; a refused scan changes nothing.
   */
  lemma AddedBadgeIsDisplayed(items: seq<Option<SponsorBadge>>, sponsor: SponsorFields, badge: SponsorBadge)
    ensures var r := AddedBadges(items, sponsor, badge);
            Displayed(r, sponsor) ==
              if r == items then Displayed(items, sponsor)
              else Displayed(items, sponsor) + [badge.(sponsor := Some(sponsor))]
  {
    var r := AddedBadges(items, sponsor, badge);
    if r != items {
      assert r[..|r| - 1] == items;
    }
  }

  /** The screen shows only the sponsor's own badges: what another sponsor scanned is not listed. */
  lemma OtherSponsorsBadgesHidden(items: seq<Option<SponsorBadge>>, mine: SponsorFields, other: SponsorFields, badge: SponsorBadge)
    requires mine != other
    ensures Displayed(AddedBadges(items, other, badge), mine) == Displayed(items, mine)
  {
    var r := AddedBadges(items, other, badge);
    if r != items {
      assert r[..|r| - 1] == items;
    }
  }
}
