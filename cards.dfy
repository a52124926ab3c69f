/** The card payload built from one row: the title
    `FIRMA_OfferNummer_Projektname`, the three-line markdown description and
    the due date. Each text field is specified by a parser that recovers the
    row's values from it. */
module Cards {

  import opened Wrappers
  import opened Sheet

  datatype Payload = Payload(title: string, desc: string, due: Option<string>)

  /** How a Python f-string renders a cell: a NaN cell reads "nan". */
  function Render(v: Option<string>): string
  {
    if v.Some? then v.value else "nan"
  }

  function Title(r: Row): string
  {
    Render(r.firma) + "_" + Render(r.offerNummer) + "_" + Render(r.projektname)
  }

  const LeistungHead := "**Leistungsumfang**: "
  const AngebotHead := "**Angebotsland**: "
  const AufstellHead := "**Aufstellungsland**: "

  /** Every line but the last ends in a space before the line break. */
  function Description(r: Row): string
  {
    DescriptionText(Render(r.leistungsumfang), Render(r.angebotsland), Render(r.aufstellungsland))
  }

  function DescriptionText(leistung: string, angebots: string, aufstell: string): string
  {
    LeistungHead + leistung + " \n" + AngebotHead + angebots + " \n" + AufstellHead + aufstell
  }

  /** `due_date`: absent for a missing `SOLL-Kontakt:` cell, otherwise the
      cell's text. */
  function Due(r: Row): (d: Option<string>)
    ensures d.None? <==> r.sollKontakt.None?
    ensures d.Some? ==> d.value == r.sollKontakt.value
  {
    match r.sollKontakt
    case None => None
    case Some(s) => Some(s)
  }

  function CardPayload(r: Row): Payload
  {
    Payload(Title(r), Description(r), Due(r))
  }

  /** Splits `s` at the first occurrence of `sep`. */
  function SplitOnce(s: string, sep: char): (r: Option<(string, string)>)
    ensures r.None? <==> sep !in s
    ensures r.Some? ==> s == r.value.0 + [sep] + r.value.1 && sep !in r.value.0
  {
    if s == [] then None
    else if s[0] == sep then Some(([], s[1..]))
    else
      match SplitOnce(s[1..], sep)
      case None => None
      case Some(p) => Some(([s[0]] + p.0, p.1))
  }

  lemma {:induction false} SplitOnceConcat(a: string, sep: char, b: string)
    requires sep !in a
    ensures SplitOnce(a + [sep] + b, sep) == Some((a, b))
  {
    if a != [] {
      assert a[0] in a;
      assert (a + [sep] + b)[0] == a[0];
      assert (a + [sep] + b)[1..] == a[1..] + [sep] + b;
      assert [a[0]] + a[1..] == a;
      SplitOnceConcat(a[1..], sep, b);
    }
  }

  /** The text between a fixed head and a fixed tail. */
  function Between(line: string, head: string, tail: string): (r: Option<string>)
    ensures r.Some? ==> line == head + r.value + tail
  {
    if |line| >= |head| + |tail| && line[..|head|] == head && line[|line| - |tail|..] == tail
    then
      var mid := line[|head|..|line| - |tail|];
      assert line == line[..|head|] + mid + line[|line| - |tail|..];
      Some(mid)
    else None
  }

  lemma BetweenConcat(head: string, mid: string, tail: string)
    ensures Between(head + mid + tail, head, tail) == Some(mid)
  {
    var line := head + mid + tail;
    assert line[..|head|] == head;
    assert line[|line| - |tail|..] == tail;
    assert line[|head|..|line| - |tail|] == mid;
  }

  /** Reads back the three values embedded in a description. */
  function ParseDescription(d: string): Option<(string, string, string)>
  {
    match SplitOnce(d, '\n')
    case None => None
    case Some(p) =>
      match SplitOnce(p.1, '\n')
      case None => None
      case Some(q) =>
        var x, y, z := Between(p.0, LeistungHead, " "), Between(q.0, AngebotHead, " "), Between(q.1, AufstellHead, "");
        if x.Some? && y.Some? && z.Some? then Some((x.value, y.value, z.value)) else None
  }

  /** Reads back FIRMA, offer number and project name from a title. */
  function ParseTitle(t: string): Option<(string, string, string)>
  {
    match SplitOnce(t, '_')
    case None => None
    case Some(p) =>
      match SplitOnce(p.1, '_')
      case None => None
      case Some(q) => Some((p.0, q.0, q.1))
  }

  /** The description holds `Leistungsumfang`, `Angebotsland` and
      `Aufstellungsland` in that order, one per line, and they can be read
      back when the first two contain no line break. */
  lemma DescriptionRoundTrip(r: Row)
    requires '\n' !in Render(r.leistungsumfang) && '\n' !in Render(r.angebotsland)
    ensures ParseDescription(Description(r))
      == Some((Render(r.leistungsumfang), Render(r.angebotsland), Render(r.aufstellungsland)))
  {
    DescriptionTextRoundTrip(Render(r.leistungsumfang), Render(r.angebotsland), Render(r.aufstellungsland));
  }

  lemma DescriptionTextRoundTrip(l: string, a: string, u: string)
    requires '\n' !in l && '\n' !in a
    ensures ParseDescription(DescriptionText(l, a, u)) == Some((l, a, u))
  {
    var line1, line2, line3 := LeistungHead + l + " ", AngebotHead + a + " ", AufstellHead + u;
    var rest := line2 + ['\n'] + line3;
    DescriptionLines(l, a, u);
    BetweenConcat(LeistungHead, l, " ");
    BetweenConcat(AngebotHead, a, " ");
    BetweenConcat(AufstellHead, u, "");
    assert AufstellHead + u + "" == line3;
  }

  /** The description splits into its three lines at its two line breaks. */
  lemma DescriptionLines(l: string, a: string, u: string)
    requires '\n' !in l && '\n' !in a
    ensures var line1, line2, line3 := LeistungHead + l + " ", AngebotHead + a + " ", AufstellHead + u;
      && SplitOnce(DescriptionText(l, a, u), '\n') == Some((line1, line2 + ['\n'] + line3))
      && SplitOnce(line2 + ['\n'] + line3, '\n') == Some((line2, line3))
  {
    var line1, line2, line3 := LeistungHead + l + " ", AngebotHead + a + " ", AufstellHead + u;
    var rest := line2 + ['\n'] + line3;
    JoinLines(LeistungHead, l, AngebotHead, a, AufstellHead, u);
    assert '\n' !in LeistungHead && '\n' !in AngebotHead;
    assert '\n' !in line1 && '\n' !in line2;
    SplitOnceConcat(line1, '\n', rest);
    SplitOnceConcat(line2, '\n', line3);
  }

  /** The description text, regrouped line by line. */
  lemma JoinLines(h1: string, v1: string, h2: string, v2: string, h3: string, v3: string)
    ensures h1 + v1 + " \n" + h2 + v2 + " \n" + h3 + v3
      == (h1 + v1 + " ") + ['\n'] + ((h2 + v2 + " ") + ['\n'] + (h3 + v3))
  {
  }

  /** A missing Leistungsumfang, Angebotsland or Aufstellungsland cell shows
      as "nan" in the description, a present one as its own text. */
  lemma MissingCellsReadNan(r: Row)
    requires r.leistungsumfang.Some? ==> '\n' !in r.leistungsumfang.value
    requires r.angebotsland.Some? ==> '\n' !in r.angebotsland.value
    ensures var p := ParseDescription(Description(r));
      && p.Some?
      && p.value.0 == (if r.leistungsumfang.Some? then r.leistungsumfang.value else "nan")
      && p.value.1 == (if r.angebotsland.Some? then r.angebotsland.value else "nan")
      && p.value.2 == (if r.aufstellungsland.Some? then r.aufstellungsland.value else "nan")
  {
    assert '\n' !in "nan";
    DescriptionRoundTrip(r);
  }

  /** Each field of the card built from a clean row gives back what it was
      built from: the title its three parts, the description its three
      cells, the due date the `SOLL-Kontakt:` cell. */
  lemma PayloadReadsBack(r: Row)
    requires Cleaned(r)
    requires '_' !in r.firma.value && '_' !in r.offerNummer.value
    requires '\n' !in Render(r.leistungsumfang) && '\n' !in Render(r.angebotsland)
    ensures var p := CardPayload(r);
      && ParseTitle(p.title) == Some((r.firma.value, r.offerNummer.value, r.projektname.value))
      && ParseDescription(p.desc) == Some((Render(r.leistungsumfang), Render(r.angebotsland), Render(r.aufstellungsland)))
      && (p.due.None? <==> r.sollKontakt.None?)
      && (p.due.Some? ==> p.due.value == r.sollKontakt.value)
  {
    TitleRoundTrip(r);
    DescriptionRoundTrip(r);
  }

  /** The title is FIRMA, offer number and project name joined by "_"; of a
      clean row they are read back when the first two contain no "_". */
  lemma TitleRoundTrip(r: Row)
    requires Cleaned(r)
    requires '_' !in r.firma.value && '_' !in r.offerNummer.value
    ensures ParseTitle(Title(r)) == Some((r.firma.value, r.offerNummer.value, r.projektname.value))
  {
    var f, o, p := r.firma.value, r.offerNummer.value, r.projektname.value;
    assert Title(r) == f + ['_'] + (o + ['_'] + p);
    SplitOnceConcat(f, '_', o + ['_'] + p);
    SplitOnceConcat(o, '_', p);
  }
}
