/**
 * `findMember` of the events page: scanned text is resolved to a registrant
 * first by an identifier token, then by an exact, case-insensitive name.
 */
module ScanResolver {
  import opened Wrappers
  import opened JsText
  import opened Directory

  /**
   * The regular expression `\b(\d{1,5})\b` matches `s[i..j]`: one to five
   * digits with a word boundary on both sides. Because a digit is a word
   * character, a run glued to a letter, a digit or `_` has no boundary there.
   */
  predicate IsIdTokenAt(s: string, i: int, j: int) {
    0 <= i < j <= |s| && j - i <= 5 && AllDigits(s[i..j])
    && (i == 0 || !IsWordChar(s[i - 1]))
    && (j == |s| || !IsWordChar(s[j]))
  }

  /** `s[i..j]` is the leftmost match of that expression, the one `match` returns. */
  ghost predicate IsFirstIdToken(s: string, i: int, j: int) {
    IsIdTokenAt(s, i, j) && forall i2, j2 :: 0 <= i2 < i ==> !IsIdTokenAt(s, i2, j2)
  }

  datatype Span = Span(start: nat, end: nat)

  /** The end of the run of digits that starts at `i`. */
  function DigitRunEnd(s: string, i: nat): (j: nat)
    requires i <= |s|
    ensures i <= j <= |s| && AllDigits(s[i..j])
    ensures j == |s| || !IsDigit(s[j])
    decreases |s| - i
  {
    if i < |s| && IsDigit(s[i]) then
      var j := DigitRunEnd(s, i + 1);
      assert s[i..j] == [s[i]] + s[i + 1..j];
      j
    else i
  }

  /** A token starting at `i` ends where the run of digits from `i` ends. */
  lemma TokenEndsAtRunEnd(s: string, i: int, j: int)
    ensures IsIdTokenAt(s, i, j) ==> j == DigitRunEnd(s, i)
  {
  }

  /** The leftmost token at or after index `i`. */
  function TokenFrom(s: string, i: nat): (r: Option<Span>)
    ensures r.Some? ==> i <= r.value.start && IsIdTokenAt(s, r.value.start, r.value.end)
    ensures r.Some? ==> forall i2, j2 :: i <= i2 < r.value.start ==> !IsIdTokenAt(s, i2, j2)
    ensures r.None? ==> forall i2, j2 :: i <= i2 ==> !IsIdTokenAt(s, i2, j2)
    decreases |s| - i
  {
    if i >= |s| then None
    else
      var boundary := IsDigit(s[i]) && (i == 0 || !IsWordChar(s[i - 1]));
      var j := DigitRunEnd(s, i);
      if boundary && j - i <= 5 && (j == |s| || !IsWordChar(s[j])) then Some(Span(i, j))
      else
        assert forall j2 :: !IsIdTokenAt(s, i, j2) by {
          forall j2 | IsIdTokenAt(s, i, j2) ensures false {
            TokenEndsAtRunEnd(s, i, j2);
          }
        }
        TokenFrom(s, i + 1)
  }

  /** `text.match(/\b(\d{1,5})\b/)`: the leftmost identifier token, if any. */
  function FirstIdToken(s: string): (r: Option<Span>)
    ensures r.Some? ==> IsFirstIdToken(s, r.value.start, r.value.end)
    ensures r.None? ==> forall i, j :: !IsIdTokenAt(s, i, j)
  {
    TokenFrom(s, 0)
  }

  /** There is only one leftmost token, and FirstIdToken finds it. */
  lemma FirstIdTokenUnique(s: string, i: int, j: int)
    requires IsFirstIdToken(s, i, j)
    ensures FirstIdToken(s) == Some(Span(i, j))
  {
    var r := FirstIdToken(s);
    assert r.Some?;
    var sp := r.value;
    assert sp.start == i;
    TokenEndsAtRunEnd(s, i, j);
    TokenEndsAtRunEnd(s, i, sp.end);
  }

  /** No token can start before the first digit of the text. */
  lemma NoTokenBeforeFirstDigit(s: string, n: int)
    requires 0 <= n <= |s| && forall k :: 0 <= k < n ==> !IsDigit(s[k])
    ensures forall i, j :: 0 <= i < n ==> !IsIdTokenAt(s, i, j)
  {
    forall i, j | 0 <= i < n && 0 <= i < j <= |s| ensures !AllDigits(s[i..j]) {
      assert s[i..j][0] == s[i];
    }
  }

  /** `v` is the number `parseInt` reads from the leftmost token of `text`. */
  ghost predicate FirstTokenValue(text: string, v: int) {
    exists i, j :: IsFirstIdToken(text, i, j) && DigitsValue(text[i..j]) == v
  }

  /** The index of the first element satisfying `p` (`Array.prototype.findIndex`). */
  function FirstIndex<T>(xs: seq<T>, p: T -> bool): (r: Option<nat>)
    ensures r.Some? ==> r.value < |xs| && p(xs[r.value])
    ensures r.Some? ==> forall k :: 0 <= k < r.value ==> !p(xs[k])
    ensures r.None? <==> forall k :: 0 <= k < |xs| ==> !p(xs[k])
  {
    if xs == [] then None
    else if p(xs[0]) then Some(0)
    else
      match FirstIndex(xs[1..], p)
      case None => None
      case Some(k) => Some(k + 1)
  }

  /** `xs.find(p)`. */
  function Find<T>(xs: seq<T>, p: T -> bool): Option<T> {
    match FirstIndex(xs, p)
    case None => None
    case Some(k) => Some(xs[k])
  }

  /** The text a name is compared with: trimmed, then lowercased. */
  function Normalize(text: string): (n: string)
    ensures |n| <= |text|
    ensures forall k :: 0 <= k < |n| ==> LowerChar(n[k]) == n[k]
  {
    var t := Trim(text);
    ToLowerIsLower(t);
    ToLower(t)
  }

  /** `dir[k]` is the first registrant whose identifier is `v`. */
  predicate IsFirstWithId(dir: seq<Registrant>, k: int, v: int) {
    0 <= k < |dir| && dir[k].id == v && forall m :: 0 <= m < k ==> dir[m].id != v
  }

  /** `dir[k]` is the first registrant whose lowercased name is `norm`. */
  predicate IsFirstWithName(dir: seq<Registrant>, k: int, norm: string) {
    0 <= k < |dir| && ToLower(dir[k].name) == norm
    && forall m :: 0 <= m < k ==> ToLower(dir[m].name) != norm
  }

  predicate HasId(dir: seq<Registrant>, v: int) {
    exists k :: 0 <= k < |dir| && dir[k].id == v
  }

  /** `dir.find(r => r.id === v)`. */
  function IdLookup(dir: seq<Registrant>, v: int): Option<Registrant> {
    Find(dir, (r: Registrant) => r.id == v)
  }

  /** `dir.find(r => r.name.toLowerCase() === norm)`. */
  function NameLookup(dir: seq<Registrant>, norm: string): Option<Registrant> {
    Find(dir, (r: Registrant) => ToLower(r.name) == norm)
  }

  /** The identifier lookup gives the first registrant with that identifier, and nothing when none has it. */
  lemma IdLookupFindsFirst(dir: seq<Registrant>, v: int)
    ensures forall k :: IsFirstWithId(dir, k, v) ==> IdLookup(dir, v) == Some(dir[k])
    ensures IdLookup(dir, v).None? <==> !HasId(dir, v)
  {
    var byId := (r: Registrant) => r.id == v;
    var fi := FirstIndex(dir, byId);
    forall k | IsFirstWithId(dir, k, v) ensures fi == Some(k) {
      assert byId(dir[k]);
      assert !(fi.value < k);
    }
    if HasId(dir, v) {
      var k :| 0 <= k < |dir| && dir[k].id == v;
      assert byId(dir[k]);
    }
  }

  /** The name lookup gives the first registrant with that name, and nothing when none has it. */
  lemma NameLookupFindsFirst(dir: seq<Registrant>, norm: string)
    ensures forall k :: IsFirstWithName(dir, k, norm) ==> NameLookup(dir, norm) == Some(dir[k])
    ensures NameLookup(dir, norm).None? <==> forall k :: 0 <= k < |dir| ==> ToLower(dir[k].name) != norm
  {
    var byName := (r: Registrant) => ToLower(r.name) == norm;
    var fn := FirstIndex(dir, byName);
    forall k | IsFirstWithName(dir, k, norm) ensures fn == Some(k) {
      assert byName(dir[k]);
      assert !(fn.value < k);
    }
    if fn.None? {
      forall k | 0 <= k < |dir| ensures ToLower(dir[k].name) != norm {
        assert !byName(dir[k]);
      }
    }
  }

  /** `findMember(text)`: an identifier lookup on the raw text, then a name lookup on the normalized text. */
  function FindMember(dir: seq<Registrant>, text: string): (r: Option<Registrant>)
    ensures r.Some? ==> r.value in dir
  {
    var byId :=
      match FirstIdToken(text)
      case None => None
      case Some(t) => IdLookup(dir, DigitsValue(text[t.start..t.end]));
    if byId.Some? then byId else NameLookup(dir, Normalize(text))
  }

  /**
   * What FindMember resolves to. When the leftmost identifier token of the
   * raw text names a registrant, the first such registrant is the answer
   * and names are not consulted. Otherwise the answer is the first
   * registrant whose lowercased name equals the trimmed, lowercased text,
   * or None when there is none.
   */
  lemma FindMemberResolves(dir: seq<Registrant>, text: string)
    ensures forall v, k :: FirstTokenValue(text, v) && IsFirstWithId(dir, k, v) ==> FindMember(dir, text) == Some(dir[k])
    ensures (forall v :: FirstTokenValue(text, v) ==> !HasId(dir, v)) ==>
              (forall k :: IsFirstWithName(dir, k, Normalize(text)) ==> FindMember(dir, text) == Some(dir[k]))
              && (FindMember(dir, text).None? <==> forall k :: 0 <= k < |dir| ==> ToLower(dir[k].name) != Normalize(text))
  {
    forall v, k | FirstTokenValue(text, v) && IsFirstWithId(dir, k, v)
      ensures FindMember(dir, text) == Some(dir[k])
    {
      FindMemberById(dir, text, v, k);
    }
    if forall v :: FirstTokenValue(text, v) ==> !HasId(dir, v) {
      FindMemberByName(dir, text);
      NameLookupFindsFirst(dir, Normalize(text));
    }
  }

  lemma FindMemberById(dir: seq<Registrant>, text: string, v: int, k: int)
    requires FirstTokenValue(text, v) && IsFirstWithId(dir, k, v)
    ensures FindMember(dir, text) == Some(dir[k])
  {
    var i, j :| IsFirstIdToken(text, i, j) && DigitsValue(text[i..j]) == v;
    FirstIdTokenUnique(text, i, j);
    IdLookupFindsFirst(dir, v);
  }

  lemma FindMemberByName(dir: seq<Registrant>, text: string)
    requires forall v :: FirstTokenValue(text, v) ==> !HasId(dir, v)
    ensures FindMember(dir, text) == NameLookup(dir, Normalize(text))
  {
    match FirstIdToken(text) {
      case None =>
      case Some(t) =>
        var v := DigitsValue(text[t.start..t.end]);
        assert FirstTokenValue(text, v);
        IdLookupFindsFirst(dir, v);
    }
  }

  // ---------------------------------------------------------------------
  // Examples

  /** A text of one to five digits is its own token. */
  lemma DigitTextIsItsOwnToken(s: string)
    requires AllDigits(s) && 1 <= |s| <= 5
    ensures FirstIdToken(s) == Some(Span(0, |s|))
    ensures FirstTokenValue(s, DigitsValue(s))
  {
    assert s[0..|s|] == s;
    assert IsIdTokenAt(s, 0, |s|);
    assert IsFirstIdToken(s, 0, |s|);
    FirstIdTokenUnique(s, 0, |s|);
  }

  /** Identifier 42 inside punctuation, as in "ID:42!!", resolves by id. */
  lemma IdInsidePunctuationResolves(r: Registrant)
    requires r.id == 42
    ensures FindMember([r], "ID:42!!") == Some(r)
  {
    var s := "ID:42!!";
    assert IsIdTokenAt(s, 3, 5);
    NoTokenBeforeFirstDigit(s, 3);
    assert s[3..5] == "42";
    assert FirstTokenValue(s, 42);
    assert IsFirstWithId([r], 0, 42);
    FindMemberResolves([r], s);
  }

  /** Digits glued to a letter ("ID42") and a run of six digits are not tokens. */
  lemma GluedAndLongRunsAreNotTokens()
    ensures FirstIdToken("ID42") == None
    ensures FirstIdToken("123456") == None
  {
    var g := "ID42";
    NoTokenBeforeFirstDigit(g, 2);
    assert forall i, j :: !IsIdTokenAt(g, i, j);
    var l := "123456";
    assert DigitRunEnd(l, 0) == 6;
    forall i, j ensures !IsIdTokenAt(l, i, j) {
      TokenEndsAtRunEnd(l, i, j);
    }
  }

  /** A name is found whatever its letter case and surrounding spaces. */
  lemma NameMatchIgnoresCaseAndSpaces(r: Registrant)
    requires r.name == "Juan Dela Cruz"
    ensures FindMember([r], "  juan DELA cruz ") == Some(r)
  {
    var text := "  juan DELA cruz ";
    NoTokenBeforeFirstDigit(text, |text|);
    NameNormalizes();
    assert IsFirstWithName([r], 0, Normalize(text));
    FindMemberResolves([r], text);
  }

  // Steps of NameMatchIgnoresCaseAndSpaces, kept apart so that each proof stays small.

  lemma NameTrimStart()
    ensures TrimStart("  juan DELA cruz ") == "juan DELA cruz "
  {
    var t := "juan DELA cruz ";
    assert !IsJsSpace(t[0]);
    assert TrimStart(t) == t;
    assert (" " + t)[1..] == t;
    assert TrimStart(" " + t) == t;
    assert ("  " + t)[1..] == " " + t;
    assert "  juan DELA cruz " == "  " + t;
  }

  lemma NameTrimEnd()
    ensures TrimEnd("juan DELA cruz ") == "juan DELA cruz"
  {
    var core := "juan DELA cruz";
    assert !IsJsSpace(core[|core| - 1]);
    assert TrimEnd(core) == core;
    assert (core + " ")[..|core|] == core;
    assert "juan DELA cruz " == core + " ";
  }

  lemma NameTrims()
    ensures Trim("  juan DELA cruz ") == "juan DELA cruz"
  {
    NameTrimStart();
    NameTrimEnd();
  }

  lemma NameLowers()
    ensures ToLower("juan DELA cruz") == "juan dela cruz" && ToLower("Juan Dela Cruz") == "juan dela cruz"
  {
  }

  lemma NameNormalizes()
    ensures Normalize("  juan DELA cruz ") == ToLower("Juan Dela Cruz") == "juan dela cruz"
  {
    NameTrims();
    NameLowers();
  }
}
