/** The spreadsheet side of the pipeline: the ten columns of interest of one
    row, the filter that drops rows without an offer number, the cleaning
    that substitutes "BLANKO" and 0 for missing values, and the two fixed
    reclassification tables applied to `Status` and `PL`. */
module Sheet {

  import opened Wrappers

  /** One row projected onto the ten columns of interest. `None` is a cell
      pandas reads as NaN. `Umsatz` is kept as an integer. */
  datatype Row = Row(
    status: Option<string>,
    firma: Option<string>,
    projektname: Option<string>,
    offerNummer: Option<string>,
    leistungsumfang: Option<string>,
    umsatz: Option<int>,
    angebotsland: Option<string>,
    aufstellungsland: Option<string>,
    pl: Option<string>,
    sollKontakt: Option<string>)

  const Blanko := "BLANKO"

  /** A cell holding a real value: present and not the sentinel "0". */
  predicate Filled(v: Option<string>) { v.Some? && v.value != "0" }

  predicate HasOffer(r: Row) { Filled(r.offerNummer) }

  /** `df_subset.loc[notna & != '0']`: keeps the rows with an offer number,
      in their original order. */
  function Filter(rows: seq<Row>): (kept: seq<Row>)
    ensures |kept| <= |rows|
    ensures forall i :: 0 <= i < |kept| ==> HasOffer(kept[i])
    ensures forall i :: 0 <= i < |kept| ==> kept[i] in rows
  {
    if rows == [] then []
    else (if HasOffer(rows[0]) then [rows[0]] else []) + Filter(rows[1..])
  }

  /** The filter keeps exactly the rows with an offer number and keeps their
      order: `idx` lists, increasing, the positions of the kept rows, and
      every position holding an offer number is among them. */
  lemma FilterKeepsOrder(rows: seq<Row>) returns (idx: seq<nat>)
    ensures |idx| == |Filter(rows)|
    ensures forall i :: 0 <= i < |idx| ==> idx[i] < |rows| && Filter(rows)[i] == rows[idx[i]]
    ensures forall i, j :: 0 <= i < j < |idx| ==> idx[i] < idx[j]
    ensures forall p :: 0 <= p < |rows| && HasOffer(rows[p]) ==> p in idx
  {
    idx := Positions(rows);
    PositionsPick(rows);
    PositionsIncrease(rows);
    PositionsComplete(rows);
  }

  /** The positions of the rows with an offer number. */
  function Positions(rows: seq<Row>): seq<nat>
  {
    if rows == [] then []
    else (if HasOffer(rows[0]) then [0] else []) + Shift(Positions(rows[1..]))
  }

  /** `f` is the elements of `xs` at the positions `p`. */
  ghost predicate Picks<T>(xs: seq<T>, p: seq<nat>, f: seq<T>)
  {
    |p| == |f| && forall i :: 0 <= i < |p| ==> p[i] < |xs| && f[i] == xs[p[i]]
  }

  lemma {:induction false} PositionsPick(rows: seq<Row>)
    ensures Picks(rows, Positions(rows), Filter(rows))
  {
    if rows != [] {
      PositionsPick(rows[1..]);
      ShiftPick(rows, Positions(rows[1..]), Filter(rows[1..]));
      var hp: seq<nat> := if HasOffer(rows[0]) then [0] else [];
      var hf := if HasOffer(rows[0]) then [rows[0]] else [];
      assert Picks(rows, hp, hf);
      PickAppend(rows, hp, hf, Shift(Positions(rows[1..])), Filter(rows[1..]));
    }
  }

  lemma ShiftPick<T>(xs: seq<T>, p: seq<nat>, f: seq<T>)
    requires xs != [] && Picks(xs[1..], p, f)
    ensures Picks(xs, Shift(p), f)
  {
    forall i | 0 <= i < |p| ensures Shift(p)[i] < |xs| && f[i] == xs[Shift(p)[i]] {
      assert xs[p[i] + 1] == xs[1..][p[i]];
    }
  }

  lemma PickAppend<T>(xs: seq<T>, p1: seq<nat>, f1: seq<T>, p2: seq<nat>, f2: seq<T>)
    requires Picks(xs, p1, f1) && Picks(xs, p2, f2)
    ensures Picks(xs, p1 + p2, f1 + f2)
  {
    var p, f := p1 + p2, f1 + f2;
    forall i | 0 <= i < |p| ensures p[i] < |xs| && f[i] == xs[p[i]] {
      if i < |p1| {
        assert p[i] == p1[i] && f[i] == f1[i];
      } else {
        assert p[i] == p2[i - |p1|] && f[i] == f2[i - |p1|];
      }
    }
  }

  lemma {:induction false} PositionsIncrease(rows: seq<Row>)
    ensures forall i, j :: 0 <= i < j < |Positions(rows)| ==> Positions(rows)[i] < Positions(rows)[j]
  {
    if rows != [] {
      PositionsIncrease(rows[1..]);
      var s := Shift(Positions(rows[1..]));
      PrependZero(s, HasOffer(rows[0]));
    }
  }

  lemma PrependZero(s: seq<nat>, zero: bool)
    requires forall i :: 0 <= i < |s| ==> 0 < s[i]
    requires forall i, j :: 0 <= i < j < |s| ==> s[i] < s[j]
    ensures var t := (if zero then [0] else []) + s;
      forall i, j :: 0 <= i < j < |t| ==> t[i] < t[j]
  {
    var t := (if zero then [0] else []) + s;
    if zero {
      forall i, j | 0 <= i < j < |t| ensures t[i] < t[j] {
        assert t[j] == s[j - 1];
        if i > 0 { assert t[i] == s[i - 1]; }
      }
    } else {
      assert t == s;
    }
  }

  lemma {:induction false} PositionsComplete(rows: seq<Row>)
    ensures forall p :: 0 <= p < |rows| && HasOffer(rows[p]) ==> p in Positions(rows)
  {
    if rows != [] {
      var tail := rows[1..];
      PositionsComplete(tail);
      var s := Shift(Positions(tail));
      forall p | 1 <= p < |rows| && HasOffer(rows[p]) ensures p in s {
        assert rows[p] == tail[p - 1];
        ShiftedIn(Positions(tail), p - 1);
      }
      assert Positions(rows) == (if HasOffer(rows[0]) then [0] else []) + s;
    }
  }

  /** Every position of `s` plus one. */
  function Shift(s: seq<nat>): (t: seq<nat>)
    ensures |t| == |s|
    ensures forall i :: 0 <= i < |s| ==> t[i] == s[i] + 1
  {
    seq(|s|, i requires 0 <= i < |s| => s[i] + 1)
  }

  lemma ShiftedIn(s: seq<nat>, x: nat)
    requires x in s
    ensures x + 1 in Shift(s)
  {
    var i :| 0 <= i < |s| && s[i] == x;
    assert Shift(s)[i] == x + 1;
  }

  /** `df_clean.loc[isna, col] = 'BLANKO'` followed by
      `df_clean.loc[== '0', col] = 'BLANKO'` on one cell. */
  function OrBlanko(v: Option<string>): (c: Option<string>)
    ensures Filled(c)
    ensures Filled(v) ==> c == v
    ensures !Filled(v) ==> c == Some(Blanko)
  {
    if v.None? then Some(Blanko)
    else if v.value == "0" then Some(Blanko)
    else v
  }

  /** `df_clean.loc[isna, 'Umsatz'] = 0` on one cell. */
  function OrZero(v: Option<int>): (c: Option<int>)
    ensures c.Some?
    ensures v.Some? ==> c == v
    ensures v.None? ==> c == Some(0)
  {
    if v.None? then Some(0) else v
  }

  /** A row as the card loop expects it. */
  predicate Cleaned(r: Row)
  {
    HasOffer(r) && Filled(r.firma) && Filled(r.projektname) && r.umsatz.Some?
  }

  /** The five substitutions applied to one row; they touch FIRMA,
      Projektname and Umsatz only. */
  function CleanRow(r: Row): (c: Row)
    ensures HasOffer(r) ==> Cleaned(c)
    ensures c == r.(firma := c.firma, projektname := c.projektname, umsatz := c.umsatz)
    ensures Filled(r.firma) ==> c.firma == r.firma
    ensures !Filled(r.firma) ==> c.firma == Some(Blanko)
    ensures Filled(r.projektname) ==> c.projektname == r.projektname
    ensures !Filled(r.projektname) ==> c.projektname == Some(Blanko)
    ensures r.umsatz.Some? ==> c.umsatz == r.umsatz
    ensures r.umsatz.None? ==> c.umsatz == Some(0)
  {
    r.(firma := OrBlanko(r.firma), projektname := OrBlanko(r.projektname), umsatz := OrZero(r.umsatz))
  }

  /** The substitutions carried out in place on the filtered frame. */
  method CleanInPlace(a: array<Row>)
    modifies a
    ensures forall i :: 0 <= i < a.Length ==> a[i] == CleanRow(old(a[i]))
  {
    var i := 0;
    while i < a.Length
      invariant 0 <= i <= a.Length
      invariant forall j :: 0 <= j < i ==> a[j] == CleanRow(old(a[j]))
      invariant forall j :: i <= j < a.Length ==> a[j] == old(a[j])
    {
      var r := a[i];
      if r.firma.None? { r := r.(firma := Some(Blanko)); }
      if r.firma == Some("0") { r := r.(firma := Some(Blanko)); }
      if r.projektname.None? { r := r.(projektname := Some(Blanko)); }
      if r.projektname == Some("0") { r := r.(projektname := Some(Blanko)); }
      if r.umsatz.None? { r := r.(umsatz := Some(0)); }
      a[i] := r;
      i := i + 1;
    }
  }

  /** `reclass_dict`, applied to the `Status` column. */
  const StatusReclass: map<string, string> := map["H" := "HOT", "W" := "WON", "L" := "LOST"]

  /** `mmbr_reclass_dict`, applied to the `PL` column. */
  const MemberReclass: map<string, string> := map["PS" := "Pedro J Sanchez", "GG" := "Gema Gomez"]

  /** `DataFrame.replace` with one table on one cell: a key is replaced by its
      value, anything else (a missing cell included) is left as it is. */
  function Reclass(table: map<string, string>, v: Option<string>): (w: Option<string>)
    ensures v.Some? && v.value in table ==> w == Some(table[v.value])
    ensures !(v.Some? && v.value in table) ==> w == v
  {
    match v
    case Some(s) => if s in table then Some(table[s]) else v
    case None => None
  }

  /** Reclassification of one row: only `Status` and `PL` can change. */
  function ReclassifyRow(r: Row): (s: Row)
    ensures s == r.(status := s.status, pl := s.pl)
    ensures s.status == Reclass(StatusReclass, r.status)
    ensures s.pl == Reclass(MemberReclass, r.pl)
  {
    r.(status := Reclass(StatusReclass, r.status), pl := Reclass(MemberReclass, r.pl))
  }

  lemma StatusCodes()
    ensures Reclass(StatusReclass, Some("H")) == Some("HOT")
    ensures Reclass(StatusReclass, Some("W")) == Some("WON")
    ensures Reclass(StatusReclass, Some("L")) == Some("LOST")
    ensures forall s :: s != "H" && s != "W" && s != "L" ==> Reclass(StatusReclass, Some(s)) == Some(s)
  {
  }

  lemma MemberCodes()
    ensures Reclass(MemberReclass, Some("PS")) == Some("Pedro J Sanchez")
    ensures Reclass(MemberReclass, Some("GG")) == Some("Gema Gomez")
    ensures forall s :: s != "PS" && s != "GG" ==> Reclass(MemberReclass, Some(s)) == Some(s)
  {
  }

  /** No value of either table is one of its keys, so reclassifying an
      already reclassified row changes nothing. */
  lemma ReclassifyIdempotent(r: Row)
    ensures ReclassifyRow(ReclassifyRow(r)) == ReclassifyRow(r)
  {
    assert "HOT" !in StatusReclass && "WON" !in StatusReclass && "LOST" !in StatusReclass;
    assert "Pedro J Sanchez" !in MemberReclass && "Gema Gomez" !in MemberReclass;
  }

  /** The substitutions on the whole filtered frame: every row with an offer
      number comes out clean, a missing or "0" FIRMA or Projektname reads
      BLANKO, a missing Umsatz reads 0, and every other cell, and every
      filled one, is left as it was. */
  function CleanAll(rows: seq<Row>): (cs: seq<Row>)
    ensures |cs| == |rows|
    ensures forall i :: 0 <= i < |rows| && HasOffer(rows[i]) ==> Cleaned(cs[i])
    ensures forall i :: 0 <= i < |rows| ==>
      cs[i] == rows[i].(firma := cs[i].firma, projektname := cs[i].projektname, umsatz := cs[i].umsatz)
    ensures forall i :: 0 <= i < |rows| ==>
      cs[i].firma == (if Filled(rows[i].firma) then rows[i].firma else Some(Blanko))
    ensures forall i :: 0 <= i < |rows| ==>
      cs[i].projektname == (if Filled(rows[i].projektname) then rows[i].projektname else Some(Blanko))
    ensures forall i :: 0 <= i < |rows| ==>
      cs[i].umsatz == (if rows[i].umsatz.Some? then rows[i].umsatz else Some(0))
  {
    seq(|rows|, i requires 0 <= i < |rows| => CleanRow(rows[i]))
  }

  /** Both tables applied to the whole frame: per row only Status and PL can
      change, a code found in its table is replaced by the table's entry,
      anything else is kept, and afterwards no Status or PL cell is a code
      any more. */
  function ReclassifyAll(rows: seq<Row>): (rs: seq<Row>)
    ensures |rs| == |rows|
    ensures forall i :: 0 <= i < |rows| ==> rs[i] == rows[i].(status := rs[i].status, pl := rs[i].pl)
    ensures forall i :: 0 <= i < |rows| ==>
      rs[i].status == (if rows[i].status.Some? && rows[i].status.value in StatusReclass
                       then Some(StatusReclass[rows[i].status.value]) else rows[i].status)
    ensures forall i :: 0 <= i < |rows| ==>
      rs[i].pl == (if rows[i].pl.Some? && rows[i].pl.value in MemberReclass
                   then Some(MemberReclass[rows[i].pl.value]) else rows[i].pl)
    ensures forall i :: 0 <= i < |rows| && rs[i].status.Some? ==> rs[i].status.value !in StatusReclass
    ensures forall i :: 0 <= i < |rows| && rs[i].pl.Some? ==> rs[i].pl.value !in MemberReclass
  {
    seq(|rows|, i requires 0 <= i < |rows| => ReclassifyRow(rows[i]))
  }

  /** Filter, clean, reclassify: the rows the card loop works on. */
  function Prepare(raw: seq<Row>): seq<Row>
  {
    ReclassifyAll(CleanAll(Filter(raw)))
  }

  /** Every prepared row is clean, and the prepared rows are the rows with an
      offer number, in order, each cleaned and reclassified. */
  lemma PrepareSound(raw: seq<Row>) returns (idx: seq<nat>)
    ensures forall i :: 0 <= i < |Prepare(raw)| ==> Cleaned(Prepare(raw)[i])
    ensures |idx| == |Prepare(raw)|
    ensures forall i :: 0 <= i < |idx| ==>
      idx[i] < |raw| && Prepare(raw)[i] == ReclassifyRow(CleanRow(raw[idx[i]]))
    ensures forall i, j :: 0 <= i < j < |idx| ==> idx[i] < idx[j]
    ensures forall p :: 0 <= p < |raw| && HasOffer(raw[p]) ==> p in idx
  {
    idx := FilterKeepsOrder(raw);
  }
}
