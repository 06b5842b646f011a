/** Lists of names as the handlers build them: split on spaces, trimmed, and
    without repetition. */
module Lists {

  /** `char::is_whitespace`. */
  predicate IsSpace(c: char) {
    var n := c as int;
    9 <= n <= 13 || n == 0x20 || n == 0x85 || n == 0xa0 || n == 0x1680 || 0x2000 <= n <= 0x200a
    || n == 0x2028 || n == 0x2029 || n == 0x202f || n == 0x205f || n == 0x3000
  }

  /** The words of a text: `split_whitespace` as a set, after the letters `word`. */
  function WordsAfter(word: string, s: string): set<string>
    decreases |s|
  {
    if s == "" then (if word == "" then {} else {word})
    else if IsSpace(s[0]) then (if word == "" then {} else {word}) + WordsAfter("", s[1..])
    else WordsAfter(word + [s[0]], s[1..])
  }

  function Words(s: string): set<string> { WordsAfter("", s) }

  /** Keeps the first of equal elements. */
  function Unique<T(==)>(xs: seq<T>): seq<T> {
    if xs == [] then []
    else
      var before := Unique(xs[..|xs| - 1]);
      if xs[|xs| - 1] in before then before else before + [xs[|xs| - 1]]
  }

  lemma {:induction false} UniqueFacts<T>(xs: seq<T>)
    ensures forall x :: x in Unique(xs) <==> x in xs
    ensures forall i, j :: 0 <= i < j < |Unique(xs)| ==> Unique(xs)[i] != Unique(xs)[j]
  {
    if xs != [] {
      UniqueFacts(xs[..|xs| - 1]);
      assert xs == xs[..|xs| - 1] + [xs[|xs| - 1]];
    }
  }

  lemma {:induction false} UniqueStarts<T>(xs: seq<T>, ys: seq<T>)
    ensures Unique(xs) <= Unique(xs + ys)
  {
    if ys == [] {
      assert xs + ys == xs;
    } else {
      UniqueStarts(xs, ys[..|ys| - 1]);
      assert (xs + ys)[..|xs + ys| - 1] == xs + ys[..|ys| - 1];
    }
  }

  lemma UniqueAppend<T>(xs: seq<T>, x: T)
    ensures Unique(xs + [x]) == if x in Unique(xs) then Unique(xs) else Unique(xs) + [x]
  {
    assert (xs + [x])[..|xs|] == xs;
  }

  /** `push_unique` for an element that is not the empty name. */
  method PushUnique<T(==)>(values: seq<T>, candidate: T, ghost seen: seq<T>) returns (r: seq<T>)
    requires values == Unique(seen)
    ensures r == Unique(seen + [candidate])
  {
    UniqueAppend(seen, candidate);
    r := values;
    var found := false;
    for i := 0 to |values|
      invariant found <==> candidate in values[..i]
    {
      found := found || values[i] == candidate;
    }
    if !found {
      r := r + [candidate];
    }
  }

  /** `merge_amr`: the primary methods, then the additions, each once. */
  method MergeAmr(primary: seq<string>, additions: seq<string>) returns (values: seq<string>)
    ensures values == Unique(primary + additions)
  {
    values := [];
    for i := 0 to |primary|
      invariant values == Unique(primary[..i])
    {
      values := PushUnique(values, primary[i], primary[..i]);
      assert primary[..i + 1] == primary[..i] + [primary[i]];
    }
    assert primary[..|primary|] == primary == primary + additions[..0];
    for i := 0 to |additions|
      invariant values == Unique(primary + additions[..i])
    {
      values := PushUnique(values, additions[i], primary + additions[..i]);
      assert primary + additions[..i + 1] == primary + additions[..i] + [additions[i]];
    }
    assert additions[..|additions|] == additions;
  }

  /** After a second factor the login counts as multi-factor, keeps every primary
      method in its place, and names no method twice. */
  lemma MergedAmr(primary: seq<string>)
    ensures var amr := Unique(primary + ["otp", "mfa"]);
            && "mfa" in amr && "otp" in amr
            && Unique(primary) <= amr
            && (forall m :: m in primary ==> m in amr)
            && (forall i, j :: 0 <= i < j < |amr| ==> amr[i] != amr[j])
  {
    UniqueFacts(primary + ["otp", "mfa"]);
    UniqueStarts(primary, ["otp", "mfa"]);
    assert ["otp", "mfa"][0] == "otp" && ["otp", "mfa"][1] == "mfa";
  }

  // ----- acr_values -----

  function TrimLeft(s: string): string {
    if s != "" && IsSpace(s[0]) then TrimLeft(s[1..]) else s
  }

  function TrimRight(s: string): string {
    if s != "" && IsSpace(s[|s| - 1]) then TrimRight(s[..|s| - 1]) else s
  }

  function Trim(s: string): string { TrimRight(TrimLeft(s)) }

  /** `split(' ')`: always at least one piece. */
  function SplitSpaces(s: string): (r: seq<string>)
    ensures |r| > 0
  {
    if s == "" then [""]
    else
      var rest := SplitSpaces(s[1..]);
      if s[0] == ' ' then [""] + rest else [[s[0]] + rest[0]] + rest[1..]
  }

  function NonBlank(items: seq<string>): seq<string> {
    if items == [] then []
    else
      var item := Trim(items[|items| - 1]);
      NonBlank(items[..|items| - 1]) + if item == "" then [] else [item]
  }

  function AcrValues(raw: string): seq<string> { Unique(NonBlank(SplitSpaces(raw))) }

  lemma NonBlankNext(items: seq<string>, i: nat)
    requires i < |items|
    ensures NonBlank(items[..i + 1]) == NonBlank(items[..i]) + if Trim(items[i]) == "" then [] else [Trim(items[i])]
    ensures Trim(items[i]) == "" ==> NonBlank(items[..i + 1]) == NonBlank(items[..i])
  {
    assert items[..i + 1][..i] == items[..i];
  }

  method ParseAcrValues(raw: string) returns (values: seq<string>)
    ensures values == AcrValues(raw)
  {
    var items := SplitSpaces(raw);
    values := [];
    for i := 0 to |items|
      invariant values == Unique(NonBlank(items[..i]))
    {
      NonBlankNext(items, i);
      var item := Trim(items[i]);
      if item != "" {
        values := PushUnique(values, item, NonBlank(items[..i]));
      }
    }
    assert items[..|items|] == items;
  }
}
