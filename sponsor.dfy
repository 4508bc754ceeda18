/**
 * The `Sponsor` record of the conference model: its three-field CSV encoding
 * (used to keep the logged-in sponsor in the settings), its field-wise merge
 * and its equality.
 */
module Sponsors {
  import opened Wrappers
  import opened JavaStrings

  /** The field values of a sponsor; `None` is a null field. */
  datatype SponsorFields = SponsorFields(id: Option<string>, name: Option<string>, slug: Option<string>)

  /** A field that is present, already trimmed and free of commas: one that survives the CSV form. */
  predicate IsCsvSafe(f: Option<string>) {
    f.Some? && IsTrimmed(f.value) && ',' !in f.value
  }

  /** `safeStr`: a null field is written as the empty string, any other one trimmed. */
  function SafeStr(f: Option<string>): (r: string)
    ensures IsTrimmed(r)
    ensures f.None? ==> r == ""
    ensures f.Some? && IsTrimmed(f.value) ==> r == f.value
    ensures f.Some? && ',' !in f.value ==> ',' !in r
  {
    if f.None? then "" else Trim(f.value)
  }

  /**
   * `toCSV`: the three safe fields joined by commas, with no quoting, so the
   * comma-separated fields of the result are the three safe fields exactly when
   * none of them holds a comma.
   */
  function ToCsv(s: SponsorFields): (r: string)
    ensures var a, b, c := SafeStr(s.id), SafeStr(s.name), SafeStr(s.slug);
      ',' !in a && ',' !in b && ',' !in c ==> Fields(r, ',') == [a, b, c]
  {
    var a, b, c := SafeStr(s.id), SafeStr(s.name), SafeStr(s.slug);
    var r := a + "," + b + "," + c;
    if ',' !in a && ',' !in b && ',' !in c then FieldsOfThree(a, b, c); r else r
  }

  /** Three comma-free fields joined by commas are its comma-separated fields. */
  lemma FieldsOfThree(a: string, b: string, c: string)
    requires ',' !in a && ',' !in b && ',' !in c
    ensures Fields(a + "," + b + "," + c, ',') == [a, b, c]
  {
    FieldsOfCons(a, ',', b + [','] + c);
    FieldsOfCons(b, ',', c);
    FieldsOfPlain(c, ',');
    assert a + [','] + (b + [','] + c) == a + "," + b + "," + c;
  }

  /**
   * `fromCSV`: null for a null or empty string; otherwise a sponsor exactly when
   * `split(",")` yields three parts, which become id, name and slug untrimmed.
   */
  function FromCsv(csv: Option<string>): (r: Option<SponsorFields>)
    ensures csv.None? || csv == Some("") ==> r.None?
    ensures r.Some? <==> csv.Some? && csv.value != "" && |Split(csv.value, ',')| == 3
    ensures r.Some? ==> r.value.id.Some? && r.value.name.Some? && r.value.slug.Some?
    ensures r.Some? ==> [r.value.id.value, r.value.name.value, r.value.slug.value] == Split(csv.value, ',')
  {
    if csv.None? || csv.value == "" then None
    else
      var parts := Split(csv.value, ',');
      if |parts| == 3 then Some(SponsorFields(Some(parts[0]), Some(parts[1]), Some(parts[2])))
      else None
  }

  /** Splitting three comma-free fields joined by commas gives them back, unless the last is empty. */
  lemma SplitThree(a: string, b: string, c: string)
    requires ',' !in a && ',' !in b && ',' !in c
    ensures c != "" ==> Split(a + "," + b + "," + c, ',') == [a, b, c]
    ensures c == "" ==> |Split(a + "," + b + "," + c, ',')| <= 2
  {
    var csv := a + "," + b + "," + c;
    FieldsOfThree(a, b, c);
    assert csv[|a|] == ',';
    var f := Fields(csv, ',');
    assert f == [a, b, c];
    if c != "" {
      assert DropTrailingEmpty(f) == f;
    }
  }

  /** Decoding the encoding gives the sponsor back when every field is CSV-safe and the slug is not empty. */
  lemma RoundTrip(s: SponsorFields)
    requires IsCsvSafe(s.id) && IsCsvSafe(s.name) && IsCsvSafe(s.slug)
    requires s.slug.value != ""
    ensures FromCsv(Some(ToCsv(s))) == Some(s)
  {
    var a, b, c := s.id.value, s.name.value, s.slug.value;
    SplitThree(a, b, c);
    assert ToCsv(s) == a + "," + b + "," + c;
  }

  /**
   * With an empty (or null) slug the encoding ends in a comma, `split` drops the
   * empty last field, and decoding yields null: the round trip fails.
   */
  lemma EmptySlugIsLost(s: SponsorFields)
    requires IsCsvSafe(s.id) && IsCsvSafe(s.name)
    requires SafeStr(s.slug) == ""
    ensures FromCsv(Some(ToCsv(s))) == None
  {
    var a, b := s.id.value, s.name.value;
    assert ToCsv(s) == a + "," + b + "," + "";
    SplitThree(a, b, "");
  }

  /**
   * Encoding a decoded sponsor gives the input back when its parts were already
   * trimmed and the input does not end in a comma (trailing commas are lost).
   */
  lemma DecodeThenEncode(csv: string, s: SponsorFields)
    requires FromCsv(Some(csv)) == Some(s)
    requires IsTrimmed(s.id.value) && IsTrimmed(s.name.value) && IsTrimmed(s.slug.value)
    requires csv[|csv| - 1] != ','
    ensures ToCsv(s) == csv
  {
    var f := Fields(csv, ',');
    assert ',' in csv;
    LastFieldNonEmpty(csv, ',');
    assert DropTrailingEmpty(f) == f;
    assert Split(csv, ',') == f;
    assert |f| == 3;
    JoinFields(csv, ',');
    JoinThree(f, ',');
    assert csv == f[0] + "," + f[1] + "," + f[2];
    assert ToCsv(s) == SafeStr(s.id) + "," + SafeStr(s.name) + "," + SafeStr(s.slug);
  }

  lemma JoinThree(f: seq<string>, sep: char)
    requires |f| == 3
    ensures Join(f, sep) == f[0] + [sep] + f[1] + [sep] + f[2]
  {
    assert f[1..][1..] == [f[2]];
    assert Join(f[1..], sep) == f[1] + [sep] + f[2];
    assert Join(f, sep) == f[0] + [sep] + (f[1] + [sep] + f[2]);
  }

  /** One field of `merge`: take the other's value when it differs, and report the change. */
  function MergeField(mine: Option<string>, theirs: Option<string>): (Option<string>, bool) {
    if theirs != mine then (theirs, true) else (mine, false)
  }

  /** `merge` on field values: the new fields and the `changed` flag. */
  function MergedFields(mine: SponsorFields, other: SponsorFields): (r: (SponsorFields, bool))
    ensures r.0 == other
    ensures r.1 <==> mine != other
  {
    var (id, c1) := MergeField(mine.id, other.id);
    var (name, c2) := MergeField(mine.name, other.name);
    var (slug, c3) := MergeField(mine.slug, other.slug);
    (SponsorFields(id, name, slug), c1 || c2 || c3)
  }

  /** Merging the same sponsor a second time reports no change and changes nothing. */
  lemma MergeIdempotent(mine: SponsorFields, other: SponsorFields)
    ensures MergedFields(MergedFields(mine, other).0, other) == (MergedFields(mine, other).0, false)
  {
  }

  /** A sponsor object, whose fields `merge` updates in place. */
  class Sponsor {
    var id: Option<string>
    var name: Option<string>
    var slug: Option<string>

    constructor (id: Option<string>, name: Option<string>, slug: Option<string>)
      ensures Value() == SponsorFields(id, name, slug)
    {
      this.id, this.name, this.slug := id, name, slug;
    }

    function Value(): SponsorFields
      reads this
    {
      SponsorFields(id, name, slug)
    }

    /** `toCSV()` */
    function ToCsvString(): (csv: string)
      reads this
      ensures IsCsvSafe(id) && IsCsvSafe(name) && IsCsvSafe(slug) && slug.value != "" ==>
                FromCsv(Some(csv)) == Some(Value())
    {
      if IsCsvSafe(id) && IsCsvSafe(name) && IsCsvSafe(slug) && slug.value != "" then
        RoundTrip(Value());
        ToCsv(Value())
      else
        ToCsv(Value())
    }

    /**
     * `merge(other)`: copies each differing field of `other` and returns whether
     * any field differed; afterwards this sponsor equals `other`.
     */
    method Merge(other: Sponsor) returns (changed: bool)
      modifies this
      ensures (Value(), changed) == MergedFields(old(Value()), old(other.Value()))
      ensures Equals(other)
    {
      changed := false;
      var oid, oname, oslug := other.id, other.name, other.slug;
      if oid != id {
        changed := true;
        id := oid;
      }
      if oname != name {
        changed := true;
        name := oname;
      }
      if oslug != slug {
        changed := true;
        slug := oslug;
      }
    }

    /** `equals(o)`: field-wise on (id, name, slug); false for null. */
    predicate Equals(o: Sponsor?)
      reads this, o
    {
      o != null && id == o.id && name == o.name && slug == o.slug
    }

    /**
     * `contains(keyword)`: false for a null or empty keyword; otherwise whether the
     * name or the slug contains the lower-cased keyword. Lower-casing and
     * `Searchable.containsKeyword` are given as functions.
     */
    function Contains(keyword: Option<string>, lower: string -> string,
                      containsKeyword: (Option<string>, string) -> bool): (r: bool)
      reads this
      ensures keyword.None? || keyword == Some("") ==> !r
      ensures r ==> containsKeyword(name, lower(keyword.value)) || containsKeyword(slug, lower(keyword.value))
    {
      if keyword.None? || keyword.value == "" then false
      else
        var lowerKeyword := lower(keyword.value);
        containsKeyword(name, lowerKeyword) || containsKeyword(slug, lowerKeyword)
    }
  }

  /** `equals` is reflexive. */
  lemma EqualsReflexive(s: Sponsor)
    ensures s.Equals(s)
  {
  }

  /** `equals` is symmetric. */
  lemma EqualsSymmetric(a: Sponsor, b: Sponsor)
    ensures a.Equals(b) <==> b.Equals(a)
  {
  }

  /** Two sponsors are equal exactly when their field values are. */
  lemma EqualsIsFieldwise(a: Sponsor, b: Sponsor)
    ensures a.Equals(b) <==> a.Value() == b.Value()
  {
  }
}
