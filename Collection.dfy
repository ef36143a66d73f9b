/**
 * The list `self.complaints` as `delete_complaint` and `export_to_csv` see it: `list.remove`,
 * which removes the first record equal to its argument under Python's dict `==`, and the rows
 * `csv.DictWriter` writes when its header is the keys of the first record.
 */
module Collection {
  import opened Wrappers
  import opened Dicts
  import opened Records
  import Forms

  // ---------------------------------------------------------------- list.remove

  /** `s.index(x)`: the first position holding a record equal to `x`, if any. */
  function IndexOfFirst(s: seq<Record>, x: Record): (r: Option<nat>)
    ensures r.None? <==> forall i :: 0 <= i < |s| ==> !SameDict(s[i], x)
    ensures r.Some? ==> r.value < |s| && SameDict(s[r.value], x)
    ensures r.Some? ==> forall i :: 0 <= i < r.value ==> !SameDict(s[i], x)
  {
    if s == [] then None
    else if SameDict(s[0], x) then Some(0)
    else match IndexOfFirst(s[1..], x)
      case None => None
      case Some(j) =>
        assert forall i :: 1 <= i <= j ==> s[i] == s[1..][i - 1];
        Some(j + 1)
  }

  /** `s.remove(x)`: `None` is the `ValueError` Python raises when no record equals `x`. */
  function RemoveFirst(s: seq<Record>, x: Record): (r: Option<seq<Record>>)
    ensures r.None? <==> IndexOfFirst(s, x).None?
  {
    match IndexOfFirst(s, x)
    case None => None
    case Some(i) => Some(s[..i] + s[i + 1..])
  }

  /**
   * A successful `remove` drops exactly one record, one equal to `x`, and keeps the others in
   * their relative order: what is left before the removed position is untouched and what is
   * left after it moves up by one.
   */
  lemma RemoveFirstDropsOne(s: seq<Record>, x: Record)
    requires RemoveFirst(s, x).Some?
    ensures var r := RemoveFirst(s, x).value; var i := IndexOfFirst(s, x).value;
      && |r| == |s| - 1 && SameDict(s[i], x)
      && multiset(s) == multiset(r) + multiset{s[i]}
      && (forall j :: 0 <= j < i ==> r[j] == s[j])
      && (forall j :: i <= j < |r| ==> r[j] == s[j + 1])
  {
    var r := RemoveFirst(s, x).value;
    var i := IndexOfFirst(s, x).value;
    assert s == s[..i] + [s[i]] + s[i + 1..];
    assert r == s[..i] + s[i + 1..];
  }

  /**
   * Deleting the record behind a list entry (the button passes the record itself) always
   * succeeds; it removes that entry, or an earlier record equal to it: the entry itself exactly
   * when no earlier record is equal to it.
   */
  lemma RemoveClicked(s: seq<Record>, q: nat)
    requires q < |s|
    ensures RemoveFirst(s, s[q]).Some?
    ensures IndexOfFirst(s, s[q]).value <= q
    ensures IndexOfFirst(s, s[q]).value == q <==> forall j :: 0 <= j < q ==> !SameDict(s[j], s[q])
  {
    SameDictReflexive(s[q]);
  }

  // ---------------------------------------------------------------- export_to_csv

  /**
   * What `export_to_csv` produces: nothing when the list is empty; otherwise a header and
   * rows; or, when a record holds a key missing from the header, the `ValueError` that
   * `csv.DictWriter` raises at that record, after the rows before it were written.
   */
  datatype ExportResult =
    | NoComplaints
    | Exported(header: seq<Field>, rows: seq<seq<string>>)
    | ExtraFields(header: seq<Field>, written: seq<seq<string>>, offending: nat)

  /** Every key of `c` is a column of `header`. */
  predicate Fits(header: seq<Field>, c: Record)
  {
    forall k :: k in Keys(c) ==> k in header
  }

  /** `DictWriter`'s row: the record's value for each column, "" where it has none. */
  function Row(header: seq<Field>, c: Record): (r: seq<string>)
    ensures |r| == |header|
    ensures forall j :: 0 <= j < |header| ==> r[j] == GetOr(c, header[j], "")
  {
    if header == [] then [] else [GetOr(c, header[0], "")] + Row(header[1..], c)
  }

  /** The rows of `cs`, in list order. */
  function Rows(header: seq<Field>, cs: seq<Record>): (r: seq<seq<string>>)
    ensures |r| == |cs|
    ensures forall i :: 0 <= i < |cs| ==> r[i] == Row(header, cs[i])
  {
    if cs == [] then [] else [Row(header, cs[0])] + Rows(header, cs[1..])
  }

  /** The position of the first record that does not fit `header`, or `|cs|` when all do. */
  function FirstMisfit(header: seq<Field>, cs: seq<Record>): (r: nat)
    ensures r <= |cs|
    ensures forall i :: 0 <= i < r ==> Fits(header, cs[i])
    ensures r < |cs| ==> !Fits(header, cs[r])
  {
    if cs == [] then 0
    else if !Fits(header, cs[0]) then 0
    else
      var j := FirstMisfit(header, cs[1..]);
      assert forall i :: 1 <= i < j + 1 ==> cs[i] == cs[1..][i - 1];
      j + 1
  }

  /** `export_to_csv` as written: `DictWriter(fieldnames=self.complaints[0].keys())`. */
  function Export(cs: seq<Record>): ExportResult
  {
    if cs == [] then NoComplaints
    else
      var header := Keys(cs[0]);
      var m := FirstMisfit(header, cs);
      if m == |cs| then Exported(header, Rows(header, cs))
      else ExtraFields(header, Rows(header, cs[..m]), m)
  }

  /**
   * Export is refused exactly when the list is empty; otherwise the header is the keys of the
   * first record. It succeeds exactly when every record's keys are among them, with one row
   * per record; else it stops at the first record with an extra key, which is never the
   * first, having written the rows before it.
   */
  lemma ExportRule(cs: seq<Record>)
    ensures Export(cs).NoComplaints? <==> cs == []
    ensures cs != [] ==> Export(cs).header == Keys(cs[0])
    ensures Export(cs).Exported? <==> cs != [] && forall i :: 0 <= i < |cs| ==> Fits(Keys(cs[0]), cs[i])
    ensures Export(cs).Exported? ==> Export(cs).rows == Rows(Keys(cs[0]), cs)
    ensures Export(cs).ExtraFields? ==>
      var r := Export(cs);
      && 0 < r.offending < |cs| && !Fits(r.header, cs[r.offending])
      && (forall i :: 0 <= i < r.offending ==> Fits(r.header, cs[i]))
      && r.written == Rows(r.header, cs[..r.offending])
  {
    if cs != [] {
      var header := Keys(cs[0]);
      assert Fits(header, cs[0]);
      var m := FirstMisfit(header, cs);
      if m == |cs| {
        assert forall i :: 0 <= i < |cs| ==> Fits(header, cs[i]);
      } else {
        assert !Fits(header, cs[m]);
      }
    }
  }

  /** Exporting two records raises at the second when it has a key the first lacks. */
  lemma ExportPairMisfit(a: Record, b: Record)
    requires !Fits(Keys(a), b)
    ensures Export([a, b]) == ExtraFields(Keys(a), [Row(Keys(a), a)], 1)
  {
    ExportRule([a, b]);
    assert [a, b][..1] == [a];
  }

  /**
   * Exporting a list whose first record is a Warning and whose second is a Technical record
   * raises at the second: `complainant_mention` is not a column of the Warning header.
   */
  lemma ExportWarningThenTechnical(w: Forms.WarningInput, c1: Clock, t: Forms.TechnicalInput, c2: Clock)
    ensures var cs := [WarningRecord(w, c1), TechnicalRecord(t, c2)];
      Export(cs) == ExtraFields(Keys(cs[0]), [Row(Keys(cs[0]), cs[0])], 1)
  {
    var a, b := WarningRecord(w, c1), TechnicalRecord(t, c2);
    WarningRecordKeys(w, c1);
    KeysAt(b, 2);
    assert b[2].0 == ComplainantMention;
    assert ComplainantMention in Keys(b) && ComplainantMention !in Keys(a);
    ExportPairMisfit(a, b);
  }

  /**
   * The columns of every record, in order of first appearance: the keys of the first
   * record, then each key a later record adds.
   */
  function Columns(cs: seq<Record>): seq<Field>
  {
    AddColumns([], cs)
  }

  /** `header` followed by the keys of `cs` it does not have yet. */
  function AddColumns(header: seq<Field>, cs: seq<Record>): seq<Field>
    decreases cs
  {
    if cs == [] then header else AddColumns(AddKeys(header, Keys(cs[0])), cs[1..])
  }

  /** `header` followed by the keys of `ks` it does not have yet, in their order. */
  function AddKeys(header: seq<Field>, ks: seq<Field>): (r: seq<Field>)
    ensures |header| <= |r| && r[..|header|] == header
    ensures forall k :: k in r <==> k in header || k in ks
    ensures Distinct(header) ==> Distinct(r)
    decreases ks
  {
    if ks == [] then header
    else if ks[0] in header then AddKeys(header, ks[1..])
    else
      var r := AddKeys(header + [ks[0]], ks[1..]);
      assert r[..|header|] == r[..|header| + 1][..|header|];
      r
  }

  /** Adding the keys of records keeps what was there first and loses no record's key. */
  lemma {:induction false} AddColumnsCovers(header: seq<Field>, cs: seq<Record>)
    ensures var r := AddColumns(header, cs);
      && |header| <= |r| && r[..|header|] == header
      && (forall k :: k in header ==> k in r)
      && (forall i :: 0 <= i < |cs| ==> Fits(r, cs[i]))
      && (Distinct(header) ==> Distinct(r))
    decreases cs
  {
    if cs != [] {
      var h := AddKeys(header, Keys(cs[0]));
      AddColumnsCovers(h, cs[1..]);
      var r := AddColumns(h, cs[1..]);
      assert r[..|header|] == r[..|h|][..|header|];
      forall i | 0 <= i < |cs| ensures Fits(r, cs[i]) {
        if i > 0 {
          assert cs[i] == cs[1..][i - 1];
        }
      }
    }
  }

  /** Adding keys the header already has changes nothing. */
  lemma {:induction false} AddKeysKnown(header: seq<Field>, ks: seq<Field>)
    requires forall k :: k in ks ==> k in header
    ensures AddKeys(header, ks) == header
    decreases ks
  {
    if ks != [] {
      AddKeysKnown(header, ks[1..]);
    }
  }

  /** Adding the keys of records that fit the header changes nothing. */
  lemma {:induction false} AddColumnsKnown(header: seq<Field>, cs: seq<Record>)
    requires forall i :: 0 <= i < |cs| ==> Fits(header, cs[i])
    ensures AddColumns(header, cs) == header
    decreases cs
  {
    if cs != [] {
      AddKeysKnown(header, Keys(cs[0]));
      assert forall i :: 0 <= i < |cs| - 1 ==> cs[1..][i] == cs[i + 1];
      AddColumnsKnown(header, cs[1..]);
    }
  }

  /**
   * Export with every record's keys as the columns (the header passed to `DictWriter` is the
   * union of all keys, the first record's first). It is refused only on an empty list.
   */
  function ExportAllColumns(cs: seq<Record>): ExportResult
  {
    if cs == [] then NoComplaints else Exported(Columns(cs), Rows(Columns(cs), cs))
  }

  /**
   * The corrected export never raises: every key of every record is a column and no column
   * appears twice; for a real dict first, the header begins with that record's keys.
   */
  lemma ExportAllColumnsRule(cs: seq<Record>)
    ensures ExportAllColumns(cs).NoComplaints? <==> cs == []
    ensures cs != [] ==>
      var r := ExportAllColumns(cs);
      && r.Exported? && Distinct(r.header) && r.rows == Rows(r.header, cs)
      && (forall i :: 0 <= i < |cs| ==> Fits(r.header, cs[i]))
    ensures cs != [] && UniqueKeys(cs[0]) ==>
      var h := ExportAllColumns(cs).header;
      |Keys(cs[0])| <= |h| && h[..|Keys(cs[0])|] == Keys(cs[0])
  {
    if cs != [] {
      var h0 := AddKeys([], Keys(cs[0]));
      AddColumnsCovers(h0, cs[1..]);
      AddColumnsCovers([], cs);
      AddKeysFresh(Keys(cs[0]));
    }
  }

  /** Adding distinct keys to an empty header gives them back. */
  lemma AddKeysFresh(ks: seq<Field>)
    ensures Distinct(ks) ==> AddKeys([], ks) == ks
  {
    if Distinct(ks) {
      AddKeysDistinct([], ks);
    }
  }

  /** Adding keys the header does not have, with no key twice, appends them. */
  lemma {:induction false} AddKeysDistinct(header: seq<Field>, ks: seq<Field>)
    requires Distinct(ks) && forall k :: k in ks ==> k !in header
    ensures AddKeys(header, ks) == header + ks
    decreases ks
  {
    if ks != [] {
      var rest := ks[1..];
      assert ks[0] !in header;
      assert Distinct(rest) by {
        forall i, j | 0 <= i < j < |rest| ensures rest[i] != rest[j] {
          assert rest[i] == ks[i + 1] && rest[j] == ks[j + 1];
        }
      }
      forall k | k in rest ensures k !in header + [ks[0]] {
        var j :| 0 <= j < |rest| && rest[j] == k;
        assert ks[j + 1] == k;
      }
      AddKeysDistinct(header + [ks[0]], rest);
      assert header + [ks[0]] + rest == header + ks;
    }
  }

  /** When every record fits the first record's keys, both exports agree. */
  lemma ExportsAgreeWhenAllFit(cs: seq<Record>)
    requires cs != [] && UniqueKeys(cs[0])
    requires forall i :: 0 <= i < |cs| ==> Fits(Keys(cs[0]), cs[i])
    ensures ExportAllColumns(cs) == Export(cs)
  {
    AddKeysFresh(Keys(cs[0]));
    assert forall i :: 0 <= i < |cs| - 1 ==> cs[1..][i] == cs[i + 1];
    AddColumnsKnown(Keys(cs[0]), cs[1..]);
    ExportRule(cs);
  }
}
