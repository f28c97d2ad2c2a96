/** The API-key list, `key:principal,key:principal`, and the lookup that names the owner the quota counts against. */
module ApiKeys {
  import opened Lifecycle

  const MIN_KEY_LENGTH := 16

  type Keys = map<string, string>

  datatype ParseError =
    | Malformed(hasColon: bool)
    | TooShort(principal: string, length: nat)
    | Duplicate(first: string, second: string)

  // ---- Python's string methods ---------------------------------------------

  /** The characters `str.strip()` removes. */
  predicate IsSpace(c: char) {
    c in " \t\n\r" || '\U{1c}' <= c <= '\U{1f}' || c in {'\U{0b}', '\U{0c}', '\U{85}', '\U{a0}', '\U{1680}'}
    || '\U{2000}' <= c <= '\U{200a}' || c in {'\U{2028}', '\U{2029}', '\U{202f}', '\U{205f}', '\U{3000}'}
  }

  predicate AllSpace(s: string) {
    forall i :: 0 <= i < |s| ==> IsSpace(s[i])
  }

  predicate Trimmed(s: string) {
    s != "" ==> !IsSpace(s[0]) && !IsSpace(s[|s| - 1])
  }

  function StripLeft(s: string): string {
    if s != "" && IsSpace(s[0]) then StripLeft(s[1..]) else s
  }

  function StripRight(s: string): string {
    if s != "" && IsSpace(s[|s| - 1]) then StripRight(s[..|s| - 1]) else s
  }

  function Strip(s: string): string {
    StripRight(StripLeft(s))
  }

  /** The position of the first c, or the length. */
  function Find(s: string, c: char): (n: nat)
    ensures n <= |s| && c !in s[..n] && (n < |s| ==> s[n] == c)
  {
    if s == "" || s[0] == c then 0 else
      assert s[..1 + Find(s[1..], c)] == [s[0]] + s[1..][..Find(s[1..], c)];
      1 + Find(s[1..], c)
  }

  function Split(s: string, c: char): (parts: seq<string>)
    ensures parts != []
    decreases |s|
  {
    var n := Find(s, c);
    if n == |s| then [s] else [s[..n]] + Split(s[n + 1..], c)
  }

  function Join(parts: seq<string>, c: char): string {
    if parts == [] then "" else if |parts| == 1 then parts[0] else parts[0] + [c] + Join(parts[1..], c)
  }

  // ---- _parse --------------------------------------------------------------

  /** What one entry adds to the keys read so far. */
  function ReadEntry(keys: Keys, raw: string): Result<Keys, ParseError> {
    var pair := Strip(raw);
    if pair == "" then Ok(keys) else
      var n := Find(pair, ':');
      var key, found := pair[..n], n < |pair|;
      var principal := if found then Strip(pair[n + 1..]) else "";
      if !found || key == "" || principal == "" then Err(Malformed(found))
      else if |key| < MIN_KEY_LENGTH then Err(TooShort(principal, |key|))
      else if key in keys then Err(Duplicate(keys[key], principal))
      else Ok(keys[key := principal])
  }

  function ReadEntries(keys: Keys, pairs: seq<string>): Result<Keys, ParseError>
    decreases |pairs|
  {
    if pairs == [] then Ok(keys) else
      match ReadEntry(keys, pairs[0])
      case Err(e) => Err(e)
      case Ok(more) => ReadEntries(more, pairs[1..])
  }

  method Parse(raw: string) returns (r: Result<Keys, ParseError>)
    ensures r == ReadEntries(map[], Split(raw, ','))
  {
    var keys: Keys := map[];
    var pairs := Split(raw, ',');
    var i := 0;
    while i < |pairs|
      invariant 0 <= i <= |pairs|
      invariant ReadEntries(map[], pairs) == ReadEntries(keys, pairs[i..])
    {
      assert pairs[i..][0] == pairs[i] && pairs[i..][1..] == pairs[i + 1..];
      var pair := Strip(pairs[i]);
      i := i + 1;
      if pair == "" {
        continue;
      }
      var n := Find(pair, ':');
      var key := pair[..n];
      var principal := if n < |pair| then Strip(pair[n + 1..]) else "";
      if n == |pair| || key == "" || principal == "" {
        return Err(Malformed(n < |pair|));
      }
      if |key| < MIN_KEY_LENGTH {
        return Err(TooShort(principal, |key|));
      }
      if key in keys {
        return Err(Duplicate(keys[key], principal));
      }
      keys := keys[key := principal];
    }
    return Ok(keys);
  }

  // ---- _principal_for ------------------------------------------------------

  /** Every entry is compared, whatever matched before; the result is a plain lookup. */
  method PrincipalFor(candidate: string, keys: Keys) returns (found: Option<string>)
    ensures found == if candidate in keys then Some(keys[candidate]) else None
  {
    found := None;
    var left := keys.Keys;
    while left != {}
      invariant left <= keys.Keys
      invariant found == if candidate in keys && candidate !in left then Some(keys[candidate]) else None
      decreases |left|
    {
      var key :| key in left;
      if key == candidate {
        found := Some(keys[key]);
      }
      left := left - {key};
    }
  }

  datatype Refusal = NotConfigured | BadKey

  /** Fails closed: no configured key admits anyone, and neither does a missing, empty or unknown one. */
  method RequirePrincipal(keys: Keys, key: Option<string>) returns (r: Result<string, Refusal>)
    ensures r.Ok? <==> key.Some? && key.value != "" && key.value in keys
    ensures r.Ok? ==> r.value == keys[key.value]
    ensures r == Err(NotConfigured) <==> keys == map[]
  {
    if keys == map[] {
      return Err(NotConfigured);
    }
    var principal: Option<string> := None;
    if key.Some? && key.value != "" {
      principal := PrincipalFor(key.value, keys);
    }
    r := if principal.Some? then Ok(principal.value) else Err(BadKey);
  }

  // ---- Refusals ------------------------------------------------------------

  /** What strip takes away, by code point: the white space of Unicode. */
  lemma SpacesAre(c: char)
    ensures var n := c as int;
            IsSpace(c) <==>
            || 9 <= n <= 13 || 28 <= n <= 32 || n == 133 || n == 160 || n == 5760 || 8192 <= n <= 8202
            || n == 8232 || n == 8233 || n == 8239 || n == 8287 || n == 12288
  {
  }

  /** A pair is refused for a key of fewer than 16 characters, and after that for a key that was there before. */
  lemma PairReadAs(keys: Keys, before: string, key: string, between: string, principal: string, after: string)
    requires AllSpace(before) && AllSpace(between) && AllSpace(after)
    requires key != "" && !IsSpace(key[0]) && ':' !in key && principal != "" && Trimmed(principal)
    ensures ReadEntry(keys, before + key + ":" + between + principal + after) ==
            if |key| < 16 then Err(TooShort(principal, |key|))
            else if key in keys then Err(Duplicate(keys[key], principal))
            else Ok(keys[key := principal])
  {
    PairParts(before, key, between, principal, after);
  }

  lemma PairParts(before: string, key: string, between: string, principal: string, after: string)
    requires AllSpace(before) && AllSpace(between) && AllSpace(after)
    requires key != "" && !IsSpace(key[0]) && ':' !in key && principal != "" && Trimmed(principal)
    ensures var pair := Strip(before + key + ":" + between + principal + after);
            && pair != "" && Find(pair, ':') == |key| < |pair| && pair[..|key|] == key
            && Strip(pair[|key| + 1..]) == principal
  {
    var body := key + ":" + between + principal;
    assert before + key + ":" + between + principal + after == before + body + after;
    assert body[0] == key[0] && body[|body| - 1] == principal[|principal| - 1];
    StripPadded(before, body, after);
    assert body == key + [':'] + (between + principal);
    FindAppend(key, ':', between + principal);
    assert body[..|key|] == key && body[|key| + 1..] == between + principal;
    assert between + principal == between + principal + "";
    StripPadded(between, principal, "");
  }

  /** An entry that is not blank is malformed without a colon, and with one before which, or after which, nothing stands. */
  lemma MalformedReadAs(keys: Keys, raw: string)
    requires Strip(raw) != ""
    ensures ':' !in Strip(raw) ==> ReadEntry(keys, raw) == Err(Malformed(false))
    ensures Strip(raw)[0] == ':' ==> ReadEntry(keys, raw) == Err(Malformed(true))
    ensures Strip(raw)[|Strip(raw)| - 1] == ':' && ':' !in Strip(raw)[..|Strip(raw)| - 1] ==>
              ReadEntry(keys, raw) == Err(Malformed(true))
  {
    var pair := Strip(raw);
    var n := |pair| - 1;
    if ':' !in pair {
      FindNone(pair, ':');
    } else if pair[n] == ':' && ':' !in pair[..n] {
      FindAppend(pair[..n], ':', "");
      assert pair[..n] + [':'] + "" == pair;
    }
  }

  // ---- Printing ------------------------------------------------------------

  /** An entry as someone might write it: blank, or a pair with spaces about it and after the colon. */
  datatype Item = Blank(space: string) | Pair(before: string, key: string, between: string, principal: string, after: string)

  predicate LegalKey(k: string) {
    |k| >= MIN_KEY_LENGTH && ',' !in k && ':' !in k && !IsSpace(k[0])
  }

  predicate LegalPrincipal(p: string) {
    p != "" && ',' !in p && Trimmed(p)
  }

  predicate LegalItem(x: Item) {
    match x
    case Blank(space) => AllSpace(space)
    case Pair(before, key, between, principal, after) =>
      AllSpace(before) && LegalKey(key) && AllSpace(between) && LegalPrincipal(principal) && AllSpace(after)
  }

  function ItemText(x: Item): string {
    match x
    case Blank(space) => space
    case Pair(before, key, between, principal, after) => before + key + ":" + between + principal + after
  }

  function ItemTexts(items: seq<Item>): (texts: seq<string>)
    ensures |texts| == |items|
  {
    seq(|items|, i requires 0 <= i < |items| => ItemText(items[i]))
  }

  function Print(items: seq<Item>): string {
    Join(ItemTexts(items), ',')
  }

  function Dictionary(items: seq<Item>): Keys {
    if items == [] then map[]
    else if items[0].Blank? then Dictionary(items[1..])
    else Dictionary(items[1..])[items[0].key := items[0].principal]
  }

  predicate DistinctKeys(items: seq<Item>) {
    forall i, j :: 0 <= i < j < |items| && items[i].Pair? && items[j].Pair? ==> items[i].key != items[j].key
  }

  // ---- Proof ---------------------------------------------------------------

  lemma {:induction false} StripLeftSpace(a: string, b: string)
    requires AllSpace(a) && (b == "" || !IsSpace(b[0]))
    ensures StripLeft(a + b) == b
  {
    if a == "" {
      assert a + b == b;
    } else {
      assert (a + b)[1..] == a[1..] + b;
      StripLeftSpace(a[1..], b);
    }
  }

  lemma {:induction false} StripRightSpace(a: string, b: string)
    requires AllSpace(b) && (a == "" || !IsSpace(a[|a| - 1]))
    ensures StripRight(a + b) == a
  {
    if b == "" {
      assert a + b == a;
    } else {
      assert (a + b)[..|a + b| - 1] == a + b[..|b| - 1];
      StripRightSpace(a, b[..|b| - 1]);
    }
  }

  /** Stripping takes the spaces about a trimmed text, and nothing else. */
  lemma StripPadded(a: string, s: string, b: string)
    requires AllSpace(a) && AllSpace(b) && Trimmed(s)
    ensures Strip(a + s + b) == s
  {
    if s == "" {
      assert a + s + b == (a + b) + "";
      assert AllSpace(a + b);
      StripLeftSpace(a + b, "");
    } else {
      assert a + s + b == a + (s + b);
      StripLeftSpace(a, s + b);
      StripRightSpace(s, b);
    }
  }

  lemma {:induction false} FindAppend(a: string, c: char, b: string)
    requires c !in a
    ensures Find(a + [c] + b, c) == |a|
  {
    var s := a + [c] + b;
    assert s[|a|] == c;
    assert forall i :: 0 <= i < |a| ==> s[i] == a[i];
    assert forall n :: |a| < n <= |s| ==> s[..n][|a|] == c;
  }

  lemma FindNone(a: string, c: char)
    requires c !in a
    ensures Find(a, c) == |a|
  {
  }

  /** Splitting undoes joining. */
  lemma {:induction false} SplitJoin(parts: seq<string>, c: char)
    requires parts != [] && forall i :: 0 <= i < |parts| ==> c !in parts[i]
    ensures Split(Join(parts, c), c) == parts
  {
    if |parts| == 1 {
      FindNone(parts[0], c);
    } else {
      var rest := Join(parts[1..], c);
      FindAppend(parts[0], c, rest);
      var s := parts[0] + [c] + rest;
      assert s[..|parts[0]|] == parts[0] && s[|parts[0]| + 1..] == rest;
      SplitJoin(parts[1..], c);
    }
  }

  lemma EntryOfPair(keys: Keys, x: Item)
    requires LegalItem(x) && x.Pair? && x.key !in keys
    ensures ReadEntry(keys, ItemText(x)) == Ok(keys[x.key := x.principal])
  {
    PairReadAs(keys, x.before, x.key, x.between, x.principal, x.after);
  }

  lemma EntryOfBlank(keys: Keys, x: Item)
    requires LegalItem(x) && x.Blank?
    ensures ReadEntry(keys, ItemText(x)) == Ok(keys)
  {
    StripPadded(x.space, "", "");
    assert x.space + "" + "" == x.space;
  }

  lemma {:induction false} ReadItems(keys: Keys, items: seq<Item>)
    requires forall i :: 0 <= i < |items| ==> LegalItem(items[i])
    requires DistinctKeys(items) && NoneTaken(keys, items)
    ensures ReadEntries(keys, ItemTexts(items)) == Ok(keys + Dictionary(items))
    decreases |items|
  {
    if items == [] {
      assert keys + Dictionary(items) == keys;
    } else {
      var x, rest := items[0], items[1..];
      assert ItemTexts(items)[0] == ItemText(x) && ItemTexts(items)[1..] == ItemTexts(rest);
      assert forall i :: 0 <= i < |rest| ==> rest[i] == items[i + 1];
      var more := if x.Blank? then keys else keys[x.key := x.principal];
      if x.Blank? { EntryOfBlank(keys, x); } else { EntryOfPair(keys, x); }
      ReadItems(more, rest);
      FirstItem(keys, items);
    }
  }

  predicate NoneTaken(keys: Keys, items: seq<Item>) {
    forall i :: 0 <= i < |items| && items[i].Pair? ==> items[i].key !in keys
  }

  lemma FirstItem(keys: Keys, items: seq<Item>)
    requires items != [] && DistinctKeys(items) && NoneTaken(keys, items)
    ensures var x, rest := items[0], items[1..];
            keys + Dictionary(items) == (if x.Blank? then keys else keys[x.key := x.principal]) + Dictionary(rest)
  {
    KeysOfDictionary(items[1..]);
  }

  lemma {:induction false} KeysOfDictionary(items: seq<Item>)
    ensures forall k :: k in Dictionary(items) <==> exists i :: 0 <= i < |items| && items[i].Pair? && items[i].key == k
  {
    if items != [] {
      KeysOfDictionary(items[1..]);
      forall k
        ensures k in Dictionary(items) <==> exists i :: 0 <= i < |items| && items[i].Pair? && items[i].key == k
      {
        if k in Dictionary(items[1..]) {
          var i :| 0 <= i < |items[1..]| && items[1..][i].Pair? && items[1..][i].key == k;
          assert items[i + 1].Pair? && items[i + 1].key == k;
        }
        if i :| 0 <= i < |items| && items[i].Pair? && items[i].key == k {
          assert i > 0 ==> items[1..][i - 1].Pair? && items[1..][i - 1].key == k;
        }
      }
    }
  }

  /** Parsing undoes printing: any legal list, with blanks and spaces anywhere, reads back as its dictionary. */
  lemma ParseUndoesPrint(items: seq<Item>)
    requires forall i :: 0 <= i < |items| ==> LegalItem(items[i])
    requires DistinctKeys(items)
    ensures ReadEntries(map[], Split(Print(items), ',')) == Ok(Dictionary(items))
  {
    if items == [] {
      NoEntries();
    } else {
      ReadPrinted(map[], items);
      EmptyPlus(Dictionary(items));
    }
  }

  lemma EmptyPlus(m: Keys)
    ensures map[] + m == m
  {
  }

  lemma ReadPrinted(keys: Keys, items: seq<Item>)
    requires items != [] && forall i :: 0 <= i < |items| ==> LegalItem(items[i])
    requires DistinctKeys(items) && NoneTaken(keys, items)
    ensures ReadEntries(keys, Split(Print(items), ',')) == Ok(keys + Dictionary(items))
  {
    PrintSplits(items);
    ReadItems(keys, items);
  }

  lemma PrintSplits(items: seq<Item>)
    requires items != [] && forall i :: 0 <= i < |items| ==> LegalItem(items[i])
    ensures Split(Print(items), ',') == ItemTexts(items)
  {
    var texts := ItemTexts(items);
    forall i | 0 <= i < |items|
      ensures ',' !in texts[i]
    {
      ItemHasNoComma(items[i]);
    }
    SplitJoin(texts, ',');
  }

  lemma NoEntries()
    ensures ReadEntries(map[], Split(Print([]), ',')) == Ok(Dictionary([]))
  {
    assert Split("", ',') == [""];
    assert [""][1..] == [];
  }

  lemma ItemHasNoComma(x: Item)
    requires LegalItem(x)
    ensures ',' !in ItemText(x)
  {
  }

  // ---- What is accepted ----------------------------------------------------

  /** A non-blank entry that reads as a pair: key, colon, principal, the key long enough. */
  predicate GoodEntry(raw: string) {
    var pair := Strip(raw);
    var n := Find(pair, ':');
    n < |pair| && n >= MIN_KEY_LENGTH && Strip(pair[n + 1..]) != ""
  }

  function KeyOf(raw: string): string {
    Strip(raw)[..Find(Strip(raw), ':')]
  }

  function PrincipalOf(raw: string): string
    requires GoodEntry(raw)
  {
    Strip(Strip(raw)[Find(Strip(raw), ':') + 1..])
  }

  predicate IsBlank(raw: string) {
    Strip(raw) == ""
  }

  predicate Acceptable(keys: Keys, pairs: seq<string>) {
    && (forall i :: 0 <= i < |pairs| && !IsBlank(pairs[i]) ==> GoodEntry(pairs[i]) && KeyOf(pairs[i]) !in keys)
    && (forall i, j :: 0 <= i < j < |pairs| && !IsBlank(pairs[i]) && !IsBlank(pairs[j]) ==> KeyOf(pairs[i]) != KeyOf(pairs[j]))
  }

  lemma EntryExactly(keys: Keys, raw: string)
    ensures ReadEntry(keys, raw).Ok? <==> IsBlank(raw) || (GoodEntry(raw) && KeyOf(raw) !in keys)
    ensures IsBlank(raw) ==> ReadEntry(keys, raw) == Ok(keys)
    ensures !IsBlank(raw) && ReadEntry(keys, raw).Ok? ==>
              ReadEntry(keys, raw).value == keys[KeyOf(raw) := PrincipalOf(raw)]
  {
  }

  /** m extends keys by the non-blank entries of pairs, each with its principal, and by nothing else. */
  ghost predicate Extends(m: Keys, keys: Keys, pairs: seq<string>) {
    && (forall k :: k in keys ==> k in m && m[k] == keys[k])
    && (forall i :: 0 <= i < |pairs| && !IsBlank(pairs[i]) ==>
          GoodEntry(pairs[i]) && KeyOf(pairs[i]) in m && m[KeyOf(pairs[i])] == PrincipalOf(pairs[i]))
    && (forall k :: k in m && k !in keys ==> Names(pairs, k))
  }

  ghost predicate Names(pairs: seq<string>, k: string) {
    exists i :: 0 <= i < |pairs| && !IsBlank(pairs[i]) && KeyOf(pairs[i]) == k
  }

  /**
   * A list is accepted exactly when every non-blank entry is a good pair and no key comes twice; the result then
   * has those keys and no others, each with its principal.
   */
  lemma {:induction false} AcceptedExactly(keys: Keys, pairs: seq<string>)
    ensures ReadEntries(keys, pairs).Ok? <==> Acceptable(keys, pairs)
    ensures ReadEntries(keys, pairs).Ok? ==> Extends(ReadEntries(keys, pairs).value, keys, pairs)
    decreases |pairs|
  {
    if pairs != [] {
      var raw, rest := pairs[0], pairs[1..];
      EntryExactly(keys, raw);
      if IsBlank(raw) || (GoodEntry(raw) && KeyOf(raw) !in keys) {
        var more := ReadEntry(keys, raw).value;
        AcceptedExactly(more, rest);
        AcceptableTail(keys, pairs, more);
        if Acceptable(more, rest) {
          ExtendsTail(ReadEntries(more, rest).value, keys, pairs, more);
        }
      } else {
        assert !Acceptable(keys, pairs);
      }
    }
  }

  lemma AcceptableTail(keys: Keys, pairs: seq<string>, more: Keys)
    requires pairs != [] && (IsBlank(pairs[0]) || (GoodEntry(pairs[0]) && KeyOf(pairs[0]) !in keys))
    requires more == if IsBlank(pairs[0]) then keys else keys[KeyOf(pairs[0]) := PrincipalOf(pairs[0])]
    ensures Acceptable(more, pairs[1..]) <==> Acceptable(keys, pairs)
  {
    var rest := pairs[1..];
    assert forall i :: 0 <= i < |rest| ==> rest[i] == pairs[i + 1];
    assert forall i :: 0 < i < |pairs| ==> pairs[i] == rest[i - 1];
  }

  lemma ExtendsTail(m: Keys, keys: Keys, pairs: seq<string>, more: Keys)
    requires pairs != [] && (IsBlank(pairs[0]) || (GoodEntry(pairs[0]) && KeyOf(pairs[0]) !in keys))
    requires more == if IsBlank(pairs[0]) then keys else keys[KeyOf(pairs[0]) := PrincipalOf(pairs[0])]
    requires Extends(m, more, pairs[1..])
    ensures Extends(m, keys, pairs)
  {
    var rest := pairs[1..];
    assert forall i :: 0 < i < |pairs| ==> pairs[i] == rest[i - 1];
    forall k | k in m && k !in keys
      ensures Names(pairs, k)
    {
      if k !in more {
        assert Names(rest, k);
        var i :| 0 <= i < |rest| && !IsBlank(rest[i]) && KeyOf(rest[i]) == k;
        assert pairs[i + 1] == rest[i];
      }
    }
  }
}
