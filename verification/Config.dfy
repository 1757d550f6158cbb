/**
 The comma-separated settings of internal/config/config.go, and what they mean for the aggregation.
 */
module Config {
  import opened Wrappers
  import opened Strings
  import opened Decimals
  import opened Aggregate

  // ---- splitList ----

  /** The trimmed parts that are not blank. */
  function Entries(parts: seq<string>): (r: seq<string>)
    ensures forall p | p in r :: p != "" && Trimmed(p)
  {
    if parts == [] then []
    else
      var p := Trim(parts[|parts| - 1]);
      Entries(parts[..|parts| - 1]) + if p != "" then [p] else []
  }

  function ListOf(s: string): seq<string> {
    Entries(Split(s, ","))
  }

  method SplitList(s: string) returns (out: seq<string>)
    ensures out == ListOf(s)
  {
    hide Trim, Split;
    out := [];
    var parts := Split(s, ",");
    for i := 0 to |parts|
      invariant out == Entries(parts[..i])
    {
      assert parts[..i + 1][..i] == parts[..i];
      var p := Trim(parts[i]);
      if p != "" {
        out := out + [p];
      }
    }
    assert parts[..|parts|] == parts;
  }

  /** An entry a list can hold: not blank, no blanks around it, no comma in it. */
  predicate Entry(p: string) {
    p != "" && Trimmed(p) && ',' !in p
  }

  lemma {:induction false} EntriesKeep(parts: seq<string>)
    requires forall i | 0 <= i < |parts| :: Entry(parts[i])
    ensures Entries(parts) == parts
  {
    hide Trim, Trimmed;
    if parts != [] {
      var n := |parts| - 1;
      assert Entry(parts[n]);
      TrimOfTrimmed(parts[n]);
      hide Entry;
      EntriesKeep(parts[..n]);
      assert parts == parts[..n] + [parts[n]];
    }
  }

  /** What splitting yields are entries. */
  lemma {:induction false} EntriesAreEntries(parts: seq<string>)
    requires forall i | 0 <= i < |parts| :: ',' !in parts[i]
    ensures forall i | 0 <= i < |Entries(parts)| :: Entry(Entries(parts)[i])
  {
    hide Trim, Trimmed;
    if parts != [] {
      EntriesAreEntries(parts[..|parts| - 1]);
      var last := parts[|parts| - 1];
      if ',' in Trim(last) { TrimKeepsChars(last, ','); }
      assert forall p | p in Entries(parts) :: p != "" && Trimmed(p);
    }
  }

  lemma ListHoldsEntries(s: string)
    ensures forall i | 0 <= i < |ListOf(s)| :: Entry(ListOf(s)[i])
  {
    var parts := Split(s, ",");
    forall i | 0 <= i < |parts| ensures ',' !in parts[i] {
      PartsHaveNoSeparator(s, ",", i);
      IndexOfChar(parts[i], ',');
    }
    hide Split, Entries, Entry;
    EntriesAreEntries(parts);
  }

  /** Joining entries with commas and splitting again gives the entries back. */
  lemma ListOfJoin(list: seq<string>)
    requires forall i | 0 <= i < |list| :: Entry(list[i])
    ensures ListOf(Join(list, ",")) == list
  {
    if list == [] {
      IndexOfChar("", ',');
      assert Split("", ",") == [""];
      assert Trim("") == "";
      assert Entries([""]) == [];
    } else {
      hide Trimmed, Split, Join;
      SplitJoin(list, ',');
      EntriesKeep(list);
    }
  }

  /** The texts with some blanks, or none, written before and after each. */
  ghost predicate Padded(parts: seq<string>, list: seq<string>) {
    |parts| == |list| && forall i | 0 <= i < |parts| :: PaddedEntry(parts[i], list[i])
  }

  ghost predicate PaddedEntry(part: string, p: string) {
    exists before, after :: Blank(before) && Blank(after) && part == before + p + after
  }

  lemma PaddedTrims(part: string, p: string)
    requires PaddedEntry(part, p) && Entry(p)
    ensures Trim(part) == p && ',' !in part
  {
    hide Trim, Trimmed;
    var before, after :| Blank(before) && Blank(after) && part == before + p + after;
    TrimPadded(before, p, after);
    NoCommaBlank(before);
    NoCommaBlank(after);
    hide Blank;
  }

  lemma NoCommaBlank(s: string)
    requires Blank(s)
    ensures ',' !in s
  {
  }

  lemma {:induction false} EntriesOfPadded(parts: seq<string>, list: seq<string>)
    requires Padded(parts, list) && forall i | 0 <= i < |list| :: Entry(list[i])
    ensures Entries(parts) == list
  {
    hide Trim, Trimmed, Blank, PaddedEntry;
    if parts != [] {
      var n := |parts| - 1;
      EntriesOfPadded(parts[..n], list[..n]);
      assert PaddedEntry(parts[n], list[n]) && Entry(list[n]);
      PaddedTrims(parts[n], list[n]);
      assert list == list[..n] + [list[n]];
    }
  }

  /** Any blanks around the entries of a comma-separated setting are immaterial. */
  lemma ListOfPadded(parts: seq<string>, list: seq<string>)
    requires Padded(parts, list) && forall i | 0 <= i < |list| :: Entry(list[i])
    ensures ListOf(Join(parts, ",")) == list
  {
    if list == [] {
      ListOfJoin([]);
    } else {
      hide PaddedEntry, Trimmed, Split, Join, Trim;
      forall i | 0 <= i < |parts| ensures ',' !in parts[i] {
        assert PaddedEntry(parts[i], list[i]) && Entry(list[i]);
        PaddedTrims(parts[i], list[i]);
      }
      SplitJoin(parts, ',');
      EntriesOfPadded(parts, list);
    }
  }

  /** A setting is stable: writing the parsed list back and reading it changes nothing. */
  lemma ListIsStable(s: string)
    ensures ListOf(Join(ListOf(s), ",")) == ListOf(s)
  {
    hide ListOf, Entry, Join;
    ListHoldsEntries(s);
    ListOfJoin(ListOf(s));
  }

  // ---- ParseIntList ----

  /** strconv.Atoi on each entry; the first that is no number fails the whole list. */
  function Ints(list: seq<string>): Result<seq<int>, string> {
    if list == [] then Ok([])
    else
      var n := |list| - 1;
      var before := Ints(list[..n]);
      if before.Err? then before
      else match ParseInt64(list[n])
        case None => Err(list[n])
        case Some(v) => Ok(before.value + [v])
  }

  lemma {:induction false} FirstBadEntry(list: seq<string>, i: nat)
    requires i < |list| && Ints(list[..i]).Ok? && ParseInt64(list[i]).None?
    ensures Ints(list) == Err(list[i])
  {
    hide ParseInt64;
    if i == |list| - 1 {
    } else {
      var init := list[..|list| - 1];
      assert init[..i] == list[..i];
      FirstBadEntry(init, i);
    }
  }

  method ParseIntList(s: string) returns (r: Result<seq<int>, string>)
    ensures r == Ints(ListOf(s))
  {
    hide ParseInt64, ListOf;
    var parts := SplitList(s);
    var out := [];
    for i := 0 to |parts|
      invariant Ints(parts[..i]) == Ok(out)
    {
      var n := ParseInt64(parts[i]);
      if n.None? {
        FirstBadEntry(parts, i);
        return Err(parts[i]);
      }
      assert parts[..i + 1][..i] == parts[..i];
      out := out + [n.value];
    }
    assert parts[..|parts|] == parts;
    return Ok(out);
  }

  function Texts(list: seq<int>): (r: seq<string>)
    ensures |r| == |list| && forall i | 0 <= i < |r| :: r[i] == IntText(list[i])
  {
    seq(|list|, i requires 0 <= i < |list| => IntText(list[i]))
  }

  lemma {:induction false} IntsOfTexts(list: seq<int>)
    requires forall i | 0 <= i < |list| :: FitsInt64(list[i])
    ensures Ints(Texts(list)) == Ok(list)
  {
    hide IntText, ParseInt64;
    if list != [] {
      var n := |list| - 1;
      IntsOfTexts(list[..n]);
      assert Texts(list)[..n] == Texts(list[..n]);
      IntRoundTrip(list[n]);
      assert list == list[..n] + [list[n]];
    }
  }

  lemma IntTextIsEntry(i: int)
    ensures Entry(IntText(i))
  {
    var t := IntText(i);
    assert t[0] in t && t[|t| - 1] in t;
  }

  /** Parsing undoes printing: any list of 64-bit integers comes back from its comma-joined decimals. */
  lemma IntListRoundTrip(list: seq<int>)
    requires forall i | 0 <= i < |list| :: FitsInt64(list[i])
    ensures Ints(ListOf(Join(Texts(list), ","))) == Ok(list)
  {
    hide Entry, ListOf, Join, Ints;
    forall i | 0 <= i < |Texts(list)| ensures Entry(Texts(list)[i]) { IntTextIsEntry(list[i]); }
    ListOfJoin(Texts(list));
    IntsOfTexts(list);
  }

  /** With any blanks around them, too. */
  lemma PaddedIntList(parts: seq<string>, list: seq<int>)
    requires Padded(parts, Texts(list)) && forall i | 0 <= i < |list| :: FitsInt64(list[i])
    ensures Ints(ListOf(Join(parts, ","))) == Ok(list)
  {
    hide Entry, ListOf, Join, Ints, PaddedEntry;
    forall i | 0 <= i < |Texts(list)| ensures Entry(Texts(list)[i]) { IntTextIsEntry(list[i]); }
    ListOfPadded(parts, Texts(list));
    IntsOfTexts(list);
  }

  /** Whatever parses is a list of numbers that fit, one per entry. */
  lemma {:induction false} ParsedInts(list: seq<string>)
    requires Ints(list).Ok?
    ensures |Ints(list).value| == |list|
    ensures forall i | 0 <= i < |list| :: ParseInt64(list[i]) == Some(Ints(list).value[i])
  {
    hide ParseInt64;
    if list != [] { ParsedInts(list[..|list| - 1]); }
  }

  // ---- merchandise patterns ----

  function DefaultPattern(): string { "hoodie" }

  function LowerAll(list: seq<string>): (r: seq<string>)
    ensures |r| == |list| && forall i | 0 <= i < |r| :: r[i] == ToLower(list[i])
  {
    seq(|list|, i requires 0 <= i < |list| => ToLower(list[i]))
  }

  function Patterns(s: string): seq<string> {
    var list := ListOf(s);
    LowerAll(if list != [] then list else ListOf(DefaultPattern()))
  }

  method Lower(list: seq<string>) returns (r: seq<string>)
    ensures r == LowerAll(list)
  {
    hide ToLower;
    var out := new string[|list|](_ => "");
    for i := 0 to |list|
      invariant forall k | 0 <= k < i :: out[k] == ToLower(list[k])
    {
      out[i] := ToLower(list[i]);
    }
    r := out[..];
  }

  method ParseMerchPatterns(s: string) returns (r: seq<string>)
    ensures r == Patterns(s)
  {
    hide ListOf, LowerAll;
    var list := SplitList(s);
    if |list| == 0 {
      list := SplitList(DefaultPattern());
    }
    r := Lower(list);
  }

  lemma DefaultList()
    ensures ListOf(DefaultPattern()) == [DefaultPattern()]
  {
    var d := DefaultPattern();
    assert Entry(d) by { assert d[0] == 'h' && d[5] == 'e'; }
    assert Join([d], ",") == d;
    hide ListOf, Entry, DefaultPattern, Join;
    ListOfJoin([d]);
  }

  lemma LowerTrimmed(p: string)
    ensures Trimmed(ToLower(p)) <==> Trimmed(p)
  {
    assert p != "" ==> IsSpace(ToLower(p)[0]) == IsSpace(p[0]) && IsSpace(ToLower(p)[|p| - 1]) == IsSpace(p[|p| - 1]);
  }

  lemma LowerDefault()
    ensures ToLower(DefaultPattern()) == "hoodie"
  {
  }

  lemma BlankSetting(s: string)
    requires Blank(s)
    ensures ListOf(s) == []
  {
    BlankTrims(s);
    BlankSplits(s);
    hide Trim, Split;
    var parts := [s];
    assert parts[..|parts| - 1] == [] && parts[|parts| - 1] == s;
    assert Entries(parts) == Entries([]);
  }

  lemma BlankTrims(s: string)
    requires Blank(s)
    ensures Trim(s) == ""
  {
    TrimPadded(s, "", "");
    hide Trim;
    assert s + "" + "" == s;
  }

  lemma BlankSplits(s: string)
    requires Blank(s)
    ensures Split(s, ",") == [s]
  {
    NoCommaBlank(s);
    IndexOfChar(s, ',');
    hide IndexOf;
  }

  /** A blank setting means hoodies, and any other one its own entries in lower case and nothing more. */
  lemma PatternsAre(s: string)
    ensures Blank(s) || ListOf(s) == [] ==> Patterns(s) == ["hoodie"]
    ensures ListOf(s) != [] ==>
      |Patterns(s)| == |ListOf(s)| && forall i | 0 <= i < |Patterns(s)| :: Patterns(s)[i] == ToLower(ListOf(s)[i])
  {
    DefaultList();
    LowerDefault();
    hide ListOf, ToLower, DefaultPattern, Blank;
    if Blank(s) { BlankSetting(s); }
  }

  /** Every parsed pattern list has something to match, in lower case and without blanks around it. */
  lemma PatternsAreClean(s: string)
    ensures Patterns(s) != []
    ensures forall p | p in Patterns(s) :: p != "" && Trimmed(p) && ToLower(p) == p
  {
    DefaultList();
    hide ListOf, Trimmed, ToLower, DefaultPattern;
    var list := if ListOf(s) != [] then ListOf(s) else ListOf(DefaultPattern());
    forall i | 0 <= i < |Patterns(s)| ensures var p := Patterns(s)[i]; p != "" && Trimmed(p) && ToLower(p) == p {
      ListHoldsEntries(s);
      ListHoldsEntries(DefaultPattern());
      assert Entry(list[i]);
      LowerTrimmed(list[i]);
      ToLowerIdempotent(list[i]);
      assert |ToLower(list[i])| == |list[i]|;
    }
  }

  lemma {:induction false} EntriesLower(a: seq<string>, b: seq<string>)
    requires |a| == |b| && forall i | 0 <= i < |a| :: b[i] == ToLower(a[i])
    ensures Entries(b) == LowerAll(Entries(a))
  {
    hide Trim, ToLower;
    if a != [] {
      var n := |a| - 1;
      EntriesLower(a[..n], b[..n]);
      TrimLower(a[n]);
      assert |ToLower(Trim(a[n]))| == |Trim(a[n])|;
    }
  }

  lemma ListLower(s: string)
    ensures ListOf(ToLower(s)) == LowerAll(ListOf(s))
  {
    SplitLower(s);
    hide Split, Entries;
    EntriesLower(Split(s, ","), Split(ToLower(s), ","));
  }

  lemma LowerAllTwice(list: seq<string>)
    ensures LowerAll(LowerAll(list)) == LowerAll(list)
  {
    forall i | 0 <= i < |list| ensures ToLower(ToLower(list[i])) == ToLower(list[i]) { ToLowerIdempotent(list[i]); }
    hide ToLower;
  }

  /** The letter case of the setting is immaterial. */
  lemma PatternsIgnoreCase(s: string, t: string)
    requires ToLower(s) == ToLower(t)
    ensures Patterns(s) == Patterns(t)
  {
    ListLower(s);
    ListLower(t);
    LowerAllTwice(ListOf(s));
    LowerAllTwice(ListOf(t));
    hide ListOf, ToLower, DefaultPattern;
    assert |LowerAll(ListOf(s))| == |LowerAll(ListOf(t))|;
  }

  /** So is the letter case of a ticket name: merchandise is recognised either way. */
  lemma MerchIgnoresCase(s: string, t: string, name: string, other: string)
    requires ToLower(s) == ToLower(t) && ToLower(name) == ToLower(other)
    ensures IsMerch(name, Patterns(s)) == IsMerch(other, Patterns(t))
  {
    PatternsIgnoreCase(s, t);
    hide Patterns, Matches, ToLower;
  }

  /** A name that holds an entry of the setting, in whatever case either is written, is merchandise. */
  lemma EntryMatches(s: string, i: nat, name: string)
    requires i < |ListOf(s)| && Contains(ToLower(name), ToLower(ListOf(s)[i]))
    ensures IsMerch(name, Patterns(s))
  {
    PatternsAreClean(s);
    hide ListOf, Contains, ToLower, Trimmed;
    assert Patterns(s)[i] == ToLower(ListOf(s)[i]);
    assert Patterns(s)[i] in Patterns(s);
    assert Matches(ToLower(name), Patterns(s)[i]);
  }
}
