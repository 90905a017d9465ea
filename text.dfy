/** String helpers the core relies on: ASCII case folding (the database's
    case-insensitive lookups), Python's `str.strip`, `str(int)`, `int(str)`,
    and Django's `slugify`. Strings are sequences of characters; only the
    ASCII behaviour of these helpers is modelled. */
module Text {
  import opened Outcome

  predicate IsUpper(c: char) { 'A' <= c <= 'Z' }
  predicate IsLower(c: char) { 'a' <= c <= 'z' }
  predicate IsDigit(c: char) { '0' <= c <= '9' }

  /** Python's whitespace class on ASCII: space, tab, newline, vertical tab,
      form feed, carriage return, and the four separators 0x1C to 0x1F. */
  predicate IsSpace(c: char) {
    c == ' ' || c == '\t' || c == '\n' || c == '\r' || c as int == 11 || c as int == 12
    || 28 <= c as int <= 31
  }

  function LowerChar(c: char): (r: char)
    ensures !IsUpper(r)
    ensures !IsUpper(c) ==> r == c
  {
    if IsUpper(c) then (c as int + 32) as char else c
  }

  /** ASCII lower-casing, character by character. */
  function Lower(s: string): (r: string)
    ensures |r| == |s|
    ensures forall i :: 0 <= i < |s| ==> r[i] == LowerChar(s[i])
  {
    seq(|s|, i requires 0 <= i < |s| => LowerChar(s[i]))
  }

  /** Python's `s.startswith(p)`. */
  predicate StartsWith(s: string, p: string) {
    p <= s
  }

  /** `q` occurs in `s` starting at position `i`. */
  predicate OccursAt(s: string, q: string, i: int) {
    0 <= i <= |s| - |q| && s[i..i + |q|] == q
  }

  /** `s` holds `q` as a contiguous piece. */
  predicate Contains(s: string, q: string) {
    exists i :: 0 <= i <= |s| - |q| && OccursAt(s, q, i)
  }

  /** Django's `istartswith` lookup, with ASCII case folding. */
  predicate IStartsWith(s: string, p: string) {
    StartsWith(Lower(s), Lower(p))
  }

  /** Django's `icontains` lookup, with ASCII case folding. */
  predicate IContains(s: string, q: string) {
    Contains(Lower(s), Lower(q))
  }

  // ---------------------------------------------------------------------
  // str.strip()

  predicate AllSpace(s: string) {
    forall i :: 0 <= i < |s| ==> IsSpace(s[i])
  }

  /** `s` without its leading whitespace. */
  function TrimLeft(s: string): (r: string)
    ensures |r| <= |s|
    ensures forall i :: 0 <= i < |s| - |r| ==> IsSpace(s[i])
    ensures r == [] || !IsSpace(r[0])
  {
    if s != [] && IsSpace(s[0]) then TrimLeft(s[1..]) else s
  }

  /** What `TrimLeft` leaves is the end of `s`. */
  lemma {:induction false} TrimLeftAt(s: string, i: nat)
    requires i < |TrimLeft(s)|
    ensures TrimLeft(s)[i] == s[|s| - |TrimLeft(s)| + i]
    decreases |s|
  {
    if s != [] && IsSpace(s[0]) {
      TrimLeftAt(s[1..], i);
    }
  }

  /** `s` without its trailing whitespace. */
  function TrimRight(s: string): (r: string)
    ensures |r| <= |s|
    ensures forall i :: |r| <= i < |s| ==> IsSpace(s[i])
    ensures r == [] || !IsSpace(r[|r| - 1])
  {
    if s != [] && IsSpace(s[|s| - 1]) then TrimRight(s[..|s| - 1]) else s
  }

  /** What `TrimRight` leaves is the start of `s`. */
  lemma {:induction false} TrimRightAt(s: string, i: nat)
    requires i < |TrimRight(s)|
    ensures TrimRight(s)[i] == s[i]
    decreases |s|
  {
    if s != [] && IsSpace(s[|s| - 1]) {
      TrimRightAt(s[..|s| - 1], i);
    }
  }

  /** How much leading whitespace `strip` removes. */
  function LeadingSpace(s: string): nat {
    |s| - |TrimLeft(s)|
  }

  /** Python's `s.strip()`: only whitespace is removed, from both ends, and
      the result neither starts nor ends with whitespace. */
  function Strip(s: string): (r: string)
    ensures LeadingSpace(s) + |r| <= |s|
    ensures forall i :: 0 <= i < |s| && !(LeadingSpace(s) <= i < LeadingSpace(s) + |r|) ==> IsSpace(s[i])
    ensures r == [] || (!IsSpace(r[0]) && !IsSpace(r[|r| - 1]))
  {
    StripEnds(s);
    TrimRight(TrimLeft(s))
  }

  /** Only whitespace lies outside what `strip` keeps. */
  lemma StripEnds(s: string)
    ensures var left := TrimLeft(s);
      var r := TrimRight(left);
      && (forall i :: 0 <= i < |s| && !(LeadingSpace(s) <= i < LeadingSpace(s) + |r|) ==> IsSpace(s[i]))
      && (r == [] || (!IsSpace(r[0]) && !IsSpace(r[|r| - 1])))
  {
    var left := TrimLeft(s);
    var r := TrimRight(left);
    if r != [] {
      TrimRightAt(left, 0);
    }
    forall i | LeadingSpace(s) + |r| <= i < |s| ensures IsSpace(s[i]) {
      TrimLeftAt(s, i - LeadingSpace(s));
    }
  }

  /** The characters `strip` keeps are those of `s` between the removed
      whitespace, in order. */
  lemma StripAt(s: string, i: nat)
    requires i < |Strip(s)|
    ensures Strip(s)[i] == s[LeadingSpace(s) + i]
  {
    TrimRightAt(TrimLeft(s), i);
    TrimLeftAt(s, i);
  }

  /** `s` is the result of `strip` with whitespace around it. */
  lemma StripSpec(s: string)
    ensures var r := Strip(s);
      && (forall i :: 0 <= i < |r| ==> r[i] == s[LeadingSpace(s) + i])
      && (forall i :: 0 <= i < LeadingSpace(s) ==> IsSpace(s[i]))
      && (forall i :: LeadingSpace(s) + |r| <= i < |s| ==> IsSpace(s[i]))
  {
    forall i | 0 <= i < |Strip(s)| ensures Strip(s)[i] == s[LeadingSpace(s) + i] {
      StripAt(s, i);
    }
  }

  /** Text without surrounding whitespace is left as it is by `strip`. */
  lemma StripOfTrimmed(s: string)
    requires s == [] || (!IsSpace(s[0]) && !IsSpace(s[|s| - 1]))
    ensures Strip(s) == s
  {
    assert TrimLeft(s) == s;
    assert TrimRight(s) == s;
  }

  /** Text made only of whitespace, the separators 0x1C to 0x1F included,
      strips to nothing. */
  lemma {:induction false} StripAllSpace(s: string)
    requires AllSpace(s)
    ensures Strip(s) == []
    decreases |s|
  {
    if s != [] {
      assert IsSpace(s[0]);
      assert AllSpace(s[1..]) by {
        forall i | 0 <= i < |s| - 1 ensures IsSpace(s[1..][i]) { assert s[1..][i] == s[i + 1]; }
      }
      StripAllSpace(s[1..]);
      assert TrimLeft(s) == TrimLeft(s[1..]);
    }
  }

  // ---------------------------------------------------------------------
  // str(n) and int(s)

  function DigitChar(d: nat): (c: char)
    requires d < 10
    ensures IsDigit(c)
  {
    ('0' as int + d) as char
  }

  function DigitValue(c: char): nat
    requires IsDigit(c)
  {
    c as int - '0' as int
  }

  predicate AllDigits(s: string) {
    forall i :: 0 <= i < |s| ==> IsDigit(s[i])
  }

  /** The decimal numeral of `n`, without leading zeros. */
  function NatToString(n: nat): (r: string)
    ensures |r| >= 1 && AllDigits(r)
    ensures r[0] == '0' ==> n == 0
    decreases n
  {
    if n < 10 then [DigitChar(n)] else NatToString(n / 10) + [DigitChar(n % 10)]
  }

  /** Python's `str(n)` for an integer. */
  function IntToString(n: int): (r: string)
    ensures |r| >= 1 && (r[0] == '-' || IsDigit(r[0]))
  {
    if n < 0 then "-" + NatToString(-n) else NatToString(n)
  }

  function DigitsValue(s: string): nat
    requires AllDigits(s)
  {
    if s == [] then 0 else DigitsValue(s[..|s| - 1]) * 10 + DigitValue(s[|s| - 1])
  }

  /** Python's `int(s)` on an optionally signed decimal numeral with
      surrounding whitespace; every other string is a ValueError. */
  function ParseInt(s: string): (r: Result<int>)
    ensures r.Err? ==> r.failure == ValueError
  {
    var t := Strip(s);
    if |t| > 0 && AllDigits(t) then Ok(DigitsValue(t) as int)
    else if |t| > 1 && t[0] == '-' && AllDigits(t[1..]) then Ok(-(DigitsValue(t[1..]) as int))
    else if |t| > 1 && t[0] == '+' && AllDigits(t[1..]) then Ok(DigitsValue(t[1..]))
    else Err(ValueError)
  }

  lemma {:induction false} DigitsValueOfNatToString(n: nat)
    ensures DigitsValue(NatToString(n)) == n
    decreases n
  {
    if n >= 10 {
      var s := NatToString(n);
      assert s[..|s| - 1] == NatToString(n / 10);
      DigitsValueOfNatToString(n / 10);
    }
  }

  /** `int(str(n)) == n`: the numeral written for a count reads back as it. */
  lemma IntToStringRoundTrip(n: int)
    ensures ParseInt(IntToString(n)) == Ok(n)
  {
    var s := IntToString(n);
    if n < 0 {
      var d := NatToString(-n);
      assert s == "-" + d && s[1..] == d;
      assert !IsSpace(s[|s| - 1]) by { assert s[|s| - 1] == d[|d| - 1]; }
      StripOfTrimmed(s);
      assert !AllDigits(s) by { assert !IsDigit(s[0]); }
      DigitsValueOfNatToString(-n);
    } else {
      assert !IsSpace(s[|s| - 1]) by { assert IsDigit(s[|s| - 1]); }
      StripOfTrimmed(s);
      DigitsValueOfNatToString(n);
    }
  }

  // ---------------------------------------------------------------------
  // django.template.defaultfilters.slugify

  /** Python's `\w` on ASCII. */
  predicate IsWordChar(c: char) { IsUpper(c) || IsLower(c) || IsDigit(c) || c == '_' }

  /** What survives `re.sub(r'[^\w\s-]', '', value)`. */
  predicate IsKept(c: char) { IsWordChar(c) || IsSpace(c) || c == '-' }

  /** A run of these collapses into one hyphen. */
  predicate IsSeparator(c: char) { c == '-' || IsSpace(c) }

  /** The characters a slug is made of. */
  predicate IsSlugChar(c: char) { IsLower(c) || IsDigit(c) || c == '_' || c == '-' }

  /** A well-formed slug: slug characters only, never two hyphens in a row. */
  predicate IsSlug(s: string) {
    && (forall i :: 0 <= i < |s| ==> IsSlugChar(s[i]))
    && (forall i :: 0 <= i < |s| - 1 ==> !(s[i] == '-' && s[i + 1] == '-'))
  }

  function KeepSlugChars(s: string): (r: string)
    ensures forall i :: 0 <= i < |r| ==> IsKept(r[i])
  {
    if s == [] then []
    else if IsKept(s[0]) then [s[0]] + KeepSlugChars(s[1..])
    else KeepSlugChars(s[1..])
  }

  function DropSeparators(s: string): (r: string)
    ensures |r| <= |s|
    ensures r == [] || !IsSeparator(r[0])
  {
    if s != [] && IsSeparator(s[0]) then DropSeparators(s[1..]) else s
  }

  /** What is left after the leading separators is the end of `s`. */
  lemma {:induction false} DropSeparatorsAt(s: string, i: nat)
    requires i < |DropSeparators(s)|
    ensures DropSeparators(s)[i] == s[|s| - |DropSeparators(s)| + i]
    decreases |s|
  {
    if s != [] && IsSeparator(s[0]) {
      DropSeparatorsAt(s[1..], i);
    }
  }

  /** `re.sub(r'[-\s]+', '-', s)`. */
  function CollapseSeparators(s: string): (r: string)
    ensures r == [] <==> s == []
    ensures r != [] ==> (r[0] == '-' <==> IsSeparator(s[0]))
    decreases |s|
  {
    if s == [] then []
    else if IsSeparator(s[0]) then "-" + CollapseSeparators(DropSeparators(s[1..]))
    else [s[0]] + CollapseSeparators(s[1..])
  }

  lemma SlugCons(c: char, s: string)
    requires IsSlugChar(c) && IsSlug(s)
    requires c == '-' ==> s == [] || s[0] != '-'
    ensures IsSlug([c] + s)
  {
    var t := [c] + s;
    forall i | 0 <= i < |t| - 1 ensures !(t[i] == '-' && t[i + 1] == '-') {
      if i > 0 {
        assert t[i] == s[i - 1] && t[i + 1] == s[i];
      }
    }
  }

  /** Collapsing lower-case slug characters and whitespace gives a slug. */
  lemma {:induction false} CollapseSeparatorsIsSlug(s: string)
    requires forall i :: 0 <= i < |s| ==> IsSlugChar(s[i]) || IsSpace(s[i])
    ensures IsSlug(CollapseSeparators(s))
    decreases |s|
  {
    if s != [] {
      if IsSeparator(s[0]) {
        var d := DropSeparators(s[1..]);
        forall i | 0 <= i < |d| ensures IsSlugChar(d[i]) || IsSpace(d[i]) {
          DropSeparatorsAt(s[1..], i);
        }
        CollapseSeparatorsIsSlug(d);
        SlugCons('-', CollapseSeparators(d));
      } else {
        assert forall i :: 0 <= i < |s| - 1 ==> s[1..][i] == s[i + 1];
        CollapseSeparatorsIsSlug(s[1..]);
        SlugCons(s[0], CollapseSeparators(s[1..]));
      }
    }
  }

  /** Django's `slugify` on ASCII text: drop every character other than
      letters, digits, `_`, `-` and whitespace, strip the ends, lower-case,
      and turn each run of hyphens and whitespace into one hyphen. */
  function Slugify(name: string): (slug: string)
    ensures IsSlug(slug)
  {
    var kept := KeepSlugChars(name);
    var stripped := Strip(kept);
    var lowered := Lower(stripped);
    assert forall i :: 0 <= i < |lowered| ==> IsSlugChar(lowered[i]) || IsSpace(lowered[i]) by {
      forall i | 0 <= i < |lowered| ensures IsSlugChar(lowered[i]) || IsSpace(lowered[i]) {
        StripAt(kept, i);
      }
    }
    CollapseSeparatorsIsSlug(lowered);
    CollapseSeparators(lowered)
  }

  lemma {:induction false} KeepSlugCharsOfKept(s: string)
    requires forall i :: 0 <= i < |s| ==> IsKept(s[i])
    ensures KeepSlugChars(s) == s
  {
    if s != [] {
      assert forall i :: 0 <= i < |s| - 1 ==> s[1..][i] == s[i + 1];
      KeepSlugCharsOfKept(s[1..]);
    }
  }

  /** Text free of hyphens and whitespace passes through collapsing. */
  lemma {:induction false} CollapseSeparatorsOfPlain(w: string, t: string)
    requires forall i :: 0 <= i < |w| ==> !IsSeparator(w[i])
    ensures CollapseSeparators(w + t) == w + CollapseSeparators(t)
  {
    if w != [] {
      var s := w + t;
      assert s[0] == w[0] && s[1..] == w[1..] + t;
      assert forall i :: 0 <= i < |w| - 1 ==> w[1..][i] == w[i + 1];
      CollapseSeparatorsOfPlain(w[1..], t);
      calc {
        CollapseSeparators(s);
        [w[0]] + CollapseSeparators(w[1..] + t);
        [w[0]] + (w[1..] + CollapseSeparators(t));
        { assert [w[0]] + w[1..] == w; }
        w + CollapseSeparators(t);
      }
    } else {
      assert w + t == t;
    }
  }

  lemma {:induction false} CollapseSeparatorsOfSlug(s: string)
    requires IsSlug(s)
    ensures CollapseSeparators(s) == s
    decreases |s|
  {
    if s != [] {
      assert IsSlug(s[1..]);
      if s[0] == '-' {
        assert s[1..] == [] || !IsSeparator(s[1]);
        assert DropSeparators(s[1..]) == s[1..];
      }
      CollapseSeparatorsOfSlug(s[1..]);
    }
  }

  /** A slug is its own slug, so slugifying is idempotent. */
  lemma SlugifyOfSlug(s: string)
    requires IsSlug(s)
    ensures Slugify(s) == s
  {
    assert forall i :: 0 <= i < |s| ==> IsKept(s[i]) && !IsSpace(s[i]) && !IsUpper(s[i]);
    KeepSlugCharsOfKept(s);
    StripOfTrimmed(s);
    assert Lower(s) == s;
    CollapseSeparatorsOfSlug(s);
  }

  lemma SlugifyIdempotent(name: string)
    ensures Slugify(Slugify(name)) == Slugify(name)
  {
    SlugifyOfSlug(Slugify(name));
  }

  /** A single space before plain text becomes one hyphen. */
  lemma CollapseSeparatorsOfSpace(t: string)
    requires t == [] || !IsSeparator(t[0])
    ensures CollapseSeparators(" " + t) == "-" + CollapseSeparators(t)
  {
    assert (" " + t)[1..] == t;
  }

  /** Three plain words joined by single spaces collapse to hyphen-joined words. */
  lemma CollapseThreeWords(a: string, b: string, c: string)
    requires forall i :: 0 <= i < |a| ==> !IsSeparator(a[i])
    requires forall i :: 0 <= i < |b| ==> !IsSeparator(b[i])
    requires forall i :: 0 <= i < |c| ==> !IsSeparator(c[i])
    requires b != [] && c != []
    ensures CollapseSeparators(a + (" " + (b + (" " + c)))) == a + ("-" + (b + ("-" + c)))
  {
    CollapseSeparatorsOfPlain(c, "");
    assert c + "" == c;
    var t1 := " " + c;
    CollapseSeparatorsOfSpace(c);
    var t2 := b + t1;
    CollapseSeparatorsOfPlain(b, t1);
    var t3 := " " + t2;
    assert t2[0] == b[0];
    CollapseSeparatorsOfSpace(t2);
    CollapseSeparatorsOfPlain(a, t3);
  }

  lemma LowerConcat(x: string, y: string)
    ensures Lower(x + y) == Lower(x) + Lower(y)
  {
  }

  lemma LowerAfterSpace(x: string)
    ensures Lower(" " + x) == " " + Lower(x)
  {
    var l := Lower(" " + x);
    assert l[0] == LowerChar(' ') == ' ';
    assert forall i :: 1 <= i < |l| ==> l[i] == LowerChar(x[i - 1]);
  }

  /** Lower-casing a word leaves no hyphen or whitespace in it. */
  lemma LowerOfWord(w: string)
    requires IsWord(w)
    ensures forall i :: 0 <= i < |Lower(w)| ==> !IsSeparator(Lower(w)[i])
  {
    forall i | 0 <= i < |w| ensures !IsSeparator(Lower(w)[i]) {
      assert IsWordChar(w[i]);
    }
  }

  /** A non-empty run of letters, digits and underscores. */
  predicate IsWord(w: string) {
    w != [] && forall i :: 0 <= i < |w| ==> IsWordChar(w[i])
  }

  predicate AllKept(s: string) {
    forall i :: 0 <= i < |s| ==> IsKept(s[i])
  }

  lemma AllKeptConcat(x: string, y: string)
    requires AllKept(x) && AllKept(y)
    ensures AllKept(x + y)
  {
    forall i | 0 <= i < |x + y| ensures IsKept((x + y)[i]) {
      if i >= |x| {
        assert (x + y)[i] == y[i - |x|];
      }
    }
  }

  /** Words joined by single spaces: nothing to drop, nothing to strip. */
  lemma KeptOfThreeWords(a: string, b: string, c: string)
    requires IsWord(a) && IsWord(b) && IsWord(c)
    ensures Strip(KeepSlugChars(a + (" " + (b + (" " + c))))) == a + (" " + (b + (" " + c)))
  {
    assert AllKept(" ");
    AllKeptConcat(" ", c);
    AllKeptConcat(b, " " + c);
    AllKeptConcat(" ", b + (" " + c));
    AllKeptConcat(a, " " + (b + (" " + c)));
    var name := a + (" " + (b + (" " + c)));
    KeepSlugCharsOfKept(name);
    assert name[0] == a[0] && name[|name| - 1] == c[|c| - 1];
    StripOfTrimmed(name);
  }

  lemma LowerOfThreeWords(a: string, b: string, c: string)
    ensures Lower(a + (" " + (b + (" " + c)))) == Lower(a) + (" " + (Lower(b) + (" " + Lower(c))))
  {
    LowerConcat(a, " " + (b + (" " + c)));
    LowerAfterSpace(b + (" " + c));
    LowerConcat(b, " " + c);
    LowerAfterSpace(c);
  }

  /** Three words separated by single spaces slugify to the lower-cased
      words joined by hyphens. */
  lemma SlugifyOfThreeWords(a: string, b: string, c: string)
    requires IsWord(a) && IsWord(b) && IsWord(c)
    ensures Slugify(a + (" " + (b + (" " + c)))) == Lower(a) + ("-" + (Lower(b) + ("-" + Lower(c))))
  {
    KeptOfThreeWords(a, b, c);
    LowerOfThreeWords(a, b, c);
    LowerOfWord(a);
    LowerOfWord(b);
    LowerOfWord(c);
    CollapseThreeWords(Lower(a), Lower(b), Lower(c));
  }

  /** A single word slugifies to its lower-case form. */
  lemma SlugifyOfWord(w: string)
    requires IsWord(w)
    ensures Slugify(w) == Lower(w)
  {
    assert forall i :: 0 <= i < |w| ==> IsKept(w[i]);
    KeepSlugCharsOfKept(w);
    assert !IsSpace(w[0]) && !IsSpace(w[|w| - 1]);
    StripOfTrimmed(w);
    LowerOfWord(w);
    CollapseSeparatorsOfPlain(Lower(w), "");
    assert Lower(w) + "" == Lower(w);
  }

  /** Two words separated by one space slugify to the lower-cased words
      joined by a hyphen. */
  lemma SlugifyOfTwoWords(a: string, b: string)
    requires IsWord(a) && IsWord(b)
    ensures Slugify(a + (" " + b)) == Lower(a) + ("-" + Lower(b))
  {
    KeptOfTwoWords(a, b);
    LowerConcat(a, " " + b);
    LowerAfterSpace(b);
    LowerOfWord(a);
    LowerOfWord(b);
    CollapseTwoWords(Lower(a), Lower(b));
  }

  lemma KeptOfTwoWords(a: string, b: string)
    requires IsWord(a) && IsWord(b)
    ensures Strip(KeepSlugChars(a + (" " + b))) == a + (" " + b)
  {
    var name := a + (" " + b);
    assert AllKept(" ");
    AllKeptConcat(" ", b);
    AllKeptConcat(a, " " + b);
    KeepSlugCharsOfKept(name);
    assert name[0] == a[0] && name[|name| - 1] == b[|b| - 1];
    StripOfTrimmed(name);
  }

  lemma CollapseTwoWords(a: string, b: string)
    requires forall i :: 0 <= i < |a| ==> !IsSeparator(a[i])
    requires forall i :: 0 <= i < |b| ==> !IsSeparator(b[i])
    requires b != []
    ensures CollapseSeparators(a + (" " + b)) == a + ("-" + b)
  {
    CollapseSeparatorsOfPlain(b, "");
    assert b + "" == b;
    CollapseSeparatorsOfSpace(b);
    CollapseSeparatorsOfPlain(a, " " + b);
  }

  lemma LowerIs(w: string, v: string)
    requires |w| == |v| && forall i :: 0 <= i < |w| ==> LowerChar(w[i]) == v[i]
    ensures Lower(w) == v
  {
  }

  lemma ExampleWords()
    ensures IsWord("Random") && IsWord("Category") && IsWord("String")
    ensures Lower("Random") == "random" && Lower("Category") == "category" && Lower("String") == "string"
  {
    LowerIs("String", "string");
    LowerIs("Random", "random");
    LowerIs("Category", "category");
  }

  /** The one slug the repository's tests pin down: the name
      "Random Category String" (written word by word) becomes
      "random-category-string". */
  lemma SlugifyExample()
    ensures Slugify("Random" + (" " + ("Category" + (" " + "String")))) == "random-category-string"
  {
    ExampleWords();
    SlugifyOfThreeWords("Random", "Category", "String");
    ExampleSlugText();
  }

  lemma ExampleSlugText()
    ensures "random" + ("-" + ("category" + ("-" + "string"))) == "random-category-string"
  {
  }
}
