/** The name normalisation the handlers compare ClickUp names with: Unicode
    canonical decomposition, removal of the combining marks U+0300 to U+036F,
    lower-casing, and removal of all whitespace.

    Characters are Dafny's `char` (Unicode scalar values). Canonical
    decomposition is given for the precomposed letters of the Latin-1
    Supplement (U+00C0 to U+00FF), each of which decomposes into an ASCII
    letter and one combining mark; every other character is its own
    decomposition. Lower-casing covers the ASCII letters A to Z. Whitespace is
    exactly the set of code points that JavaScript's `\s` matches. */
module Names {
  import opened Common

  /** JavaScript `\s`: the WhiteSpace and LineTerminator code points of
      ECMAScript (tab, line feed, vertical tab, form feed, carriage return,
      space, no-break space, the Unicode space separators, the line and
      paragraph separators, and the byte order mark). */
  predicate IsWhitespace(c: char) {
    || c == '\t' || c == '\n' || c == '\U{000B}' || c == '\U{000C}' || c == '\r'
    || c == ' ' || c == '\U{00A0}' || c == '\U{1680}'
    || ('\U{2000}' <= c <= '\U{200A}')
    || c == '\U{2028}' || c == '\U{2029}' || c == '\U{202F}' || c == '\U{205F}'
    || c == '\U{3000}' || c == '\U{FEFF}'
  }

  /** The character class U+0300 to U+036F: the Combining Diacritical Marks block. */
  predicate IsCombiningMark(c: char) {
    '\U{0300}' <= c <= '\U{036F}'
  }

  predicate IsAsciiUpper(c: char) {
    'A' <= c <= 'Z'
  }

  predicate IsAsciiLower(c: char) {
    'a' <= c <= 'z'
  }

  /** `toLowerCase` on one character, for the ASCII letters. */
  function LowerChar(c: char): (r: char)
    ensures IsAsciiUpper(c) ==> IsAsciiLower(r) && r as int == c as int + 0x20
    ensures !IsAsciiUpper(c) ==> r == c
  {
    if IsAsciiUpper(c) then (c as int + 0x20) as char else c
  }

  /** Canonical decomposition of the upper-case precomposed Latin-1 letters
      (U+00C0 to U+00DE): the base letter and the combining mark (grave U+0300,
      acute U+0301, circumflex U+0302, tilde U+0303, diaeresis U+0308, ring
      U+030A, cedilla U+0327). Æ, Ð, ×, Ø, Þ and ß have none. */
  function UpperDecomposition(c: char): (r: Option<(char, char)>)
    ensures r.Some? ==> '\U{00C0}' <= c <= '\U{00DD}'
    ensures r.Some? ==> IsAsciiUpper(r.value.0) && IsCombiningMark(r.value.1)
  {
    var k := c as int;
    var grave, acute, circumflex, tilde, diaeresis, ring, cedilla :=
      '\U{0300}', '\U{0301}', '\U{0302}', '\U{0303}', '\U{0308}', '\U{030A}', '\U{0327}';
    if 0xC0 <= k <= 0xC5 then Some(('A', [grave, acute, circumflex, tilde, diaeresis, ring][k - 0xC0]))
    else if k == 0xC7 then Some(('C', cedilla))
    else if 0xC8 <= k <= 0xCB then Some(('E', [grave, acute, circumflex, diaeresis][k - 0xC8]))
    else if 0xCC <= k <= 0xCF then Some(('I', [grave, acute, circumflex, diaeresis][k - 0xCC]))
    else if k == 0xD1 then Some(('N', tilde))
    else if 0xD2 <= k <= 0xD6 then Some(('O', [grave, acute, circumflex, tilde, diaeresis][k - 0xD2]))
    else if 0xD9 <= k <= 0xDC then Some(('U', [grave, acute, circumflex, diaeresis][k - 0xD9]))
    else if k == 0xDD then Some(('Y', acute))
    else None
  }

  /** Canonical decomposition of the precomposed Latin-1 letters (U+00C0 to
      U+00FF): each is an ASCII letter followed by one combining mark. The
      lower-case letters sit 0x20 above their upper-case partners, except ÿ. */
  function Latin1Decomposition(c: char): (r: Option<(char, char)>)
    ensures r.Some? ==> '\U{00C0}' <= c <= '\U{00FF}'
    ensures r.Some? ==> (IsAsciiUpper(r.value.0) || IsAsciiLower(r.value.0)) && IsCombiningMark(r.value.1)
  {
    if c == '\U{00FF}' then Some(('y', '\U{0308}'))
    else if '\U{00E0}' <= c <= '\U{00FE}' then
      match UpperDecomposition((c as int - 0x20) as char)
      case None => None
      case Some(p) => Some((LowerChar(p.0), p.1))
    else UpperDecomposition(c)
  }

  /** A character that canonical decomposition splits. */
  predicate IsPrecomposed(c: char) {
    Latin1Decomposition(c).Some?
  }

  /** The canonical decomposition of one character: a precomposed letter
      becomes its base letter and its mark, every other character stays.
      Nothing in the result decomposes further. */
  function Decompose(c: char): (r: seq<char>)
    ensures !IsPrecomposed(c) ==> r == [c]
    ensures IsPrecomposed(c) ==> |r| == 2 && IsCombiningMark(r[1])
    ensures IsPrecomposed(c) ==> IsAsciiUpper(r[0]) || IsAsciiLower(r[0])
    ensures forall i :: 0 <= i < |r| ==> !IsPrecomposed(r[i])
  {
    match Latin1Decomposition(c)
    case None => [c]
    case Some(p) => [p.0, p.1]
  }

  /** Canonical decomposition (NFD) of a string: every character replaced by
      its decomposition. */
  function Nfd(s: string): (r: string)
  {
    if s == [] then [] else Decompose(s[0]) + Nfd(s[1..])
  }

  /** Decomposition at most doubles the length, and leaves no precomposed
      letter behind. */
  lemma {:induction false} NfdDecomposes(s: string)
    ensures |s| <= |Nfd(s)| <= 2 * |s|
    ensures forall i :: 0 <= i < |Nfd(s)| ==> !IsPrecomposed(Nfd(s)[i])
  {
    if s != [] {
      NfdDecomposes(s[1..]);
      var d, r := Decompose(s[0]), Nfd(s[1..]);
      assert Nfd(s) == d + r;
      assert forall i :: |d| <= i < |d + r| ==> (d + r)[i] == r[i - |d|];
    }
  }

  predicate NotMark(c: char) { !IsCombiningMark(c) }

  predicate NotWhitespace(c: char) { !IsWhitespace(c) }

  /** Deletes every combining mark U+0300 to U+036F. */
  function StripMarks(s: string): (r: string) {
    Filter(s, NotMark)
  }

  /** Deletes every run of whitespace, that is, every whitespace character. */
  function StripWhitespace(s: string): (r: string) {
    Filter(s, NotWhitespace)
  }

  /** Lower-casing on the ASCII letters: A to Z become a to z, every other
      character is kept. */
  function LowerCase(s: string): (r: string)
  {
    seq(|s|, i requires 0 <= i < |s| => LowerChar(s[i]))
  }

  /** Lower-casing keeps the length, leaves no upper-case ASCII letter, and
      changes only upper-case ASCII letters, into lower-case ones. */
  lemma LowerCaseSpec(s: string)
    ensures |LowerCase(s)| == |s|
    ensures forall i :: 0 <= i < |s| ==> !IsAsciiUpper(LowerCase(s)[i])
    ensures forall i :: 0 <= i < |s| ==>
              LowerCase(s)[i] == s[i] || (IsAsciiUpper(s[i]) && IsAsciiLower(LowerCase(s)[i]))
  {
  }

  /** A character that can appear in a normalised name. */
  predicate IsNormalChar(c: char) {
    !IsWhitespace(c) && !IsCombiningMark(c) && !IsAsciiUpper(c) && !IsPrecomposed(c)
  }

  /** A string in normal form: no whitespace, no combining mark U+0300 to
      U+036F, no upper-case ASCII letter, no precomposed letter. */
  predicate IsNormal(s: string) {
    forall i :: 0 <= i < |s| ==> IsNormalChar(s[i])
  }

  /** The name normalisation: decompose, drop the combining marks, lower-case,
      drop the whitespace. The result is in normal form. */
  function Normalize(s: string): (r: string)
    ensures IsNormal(r)
  {
    var l := LowerCase(StripMarks(Nfd(s)));
    LoweredIsClean(s);
    var w := StripWhitespace(l);
    FilterSound(l, NotWhitespace);
    assert forall i :: 0 <= i < |w| ==> w[i] in l;
    w
  }

  /** After the marks are gone and the letters lowered, only whitespace may
      keep a character out of normal form. */
  lemma LoweredIsClean(s: string)
    ensures forall i :: 0 <= i < |LowerCase(StripMarks(Nfd(s)))| ==>
      var c := LowerCase(StripMarks(Nfd(s)))[i];
      !IsCombiningMark(c) && !IsAsciiUpper(c) && !IsPrecomposed(c)
  {
    var d := Nfd(s);
    var m := StripMarks(d);
    NfdDecomposes(s);
    LowerCaseSpec(m);
    FilterSound(d, NotMark);
    forall i | 0 <= i < |m| ensures !IsCombiningMark(m[i]) && !IsPrecomposed(m[i]) {
      assert m[i] in d;
    }
  }

  lemma {:induction false} NfdOfDecomposed(s: string)
    requires forall i :: 0 <= i < |s| ==> !IsPrecomposed(s[i])
    ensures Nfd(s) == s
  {
    if s != [] {
      NfdOfDecomposed(s[1..]);
    }
  }

  /** `Normalize` leaves exactly the strings in normal form unchanged: its
      results are precisely the normal strings. */
  lemma NormalIsFixpoint(s: string)
    ensures Normalize(s) == s <==> IsNormal(s)
  {
    if IsNormal(s) {
      NfdOfDecomposed(s);
      FilterKeepsAll(s, NotMark);
      assert LowerCase(s) == s;
      FilterKeepsAll(s, NotWhitespace);
    }
  }

  /** Normalising twice is normalising once. */
  lemma NormalizeIdempotent(s: string)
    ensures Normalize(Normalize(s)) == Normalize(s)
  {
    NormalIsFixpoint(Normalize(s));
  }

  lemma {:induction false} NfdAppend(a: string, b: string)
    ensures Nfd(a + b) == Nfd(a) + Nfd(b)
  {
    if a == [] {
      assert a + b == b;
    } else {
      assert (a + b)[0] == a[0];
      assert (a + b)[1..] == a[1..] + b;
      NfdAppend(a[1..], b);
    }
  }

  lemma LowerCaseAppend(a: string, b: string)
    ensures LowerCase(a + b) == LowerCase(a) + LowerCase(b)
  {
    var l, r := LowerCase(a + b), LowerCase(a) + LowerCase(b);
    assert |l| == |r|;
    forall i | 0 <= i < |l| ensures l[i] == r[i] {
      if i < |a| {
        assert (a + b)[i] == a[i];
      } else {
        assert (a + b)[i] == b[i - |a|];
      }
    }
  }

  /** Normalisation works character by character: it distributes over
      concatenation. */
  lemma NormalizeAppend(a: string, b: string)
    ensures Normalize(a + b) == Normalize(a) + Normalize(b)
  {
    NfdAppend(a, b);
    FilterAppend(Nfd(a), Nfd(b), NotMark);
    var ma, mb := StripMarks(Nfd(a)), StripMarks(Nfd(b));
    assert StripMarks(Nfd(a + b)) == ma + mb;
    LowerCaseAppend(ma, mb);
    FilterAppend(LowerCase(ma), LowerCase(mb), NotWhitespace);
    assert Normalize(a + b) == StripWhitespace(LowerCase(ma + mb));
  }

  /** One character that decomposition keeps normalises to its lower-case
      form, or to nothing when it is whitespace or a combining mark. */
  lemma NormalizePlain(c: char)
    requires !IsPrecomposed(c)
    ensures Normalize([c]) == if IsWhitespace(c) || IsCombiningMark(c) then [] else [LowerChar(c)]
  {
    assert [c][1..] == [];
    assert Nfd([c]) == [c];
    FilterSingleton(c, NotMark);
    if !IsCombiningMark(c) {
      assert LowerCase([c]) == [LowerChar(c)];
      FilterSingleton(LowerChar(c), NotWhitespace);
    }
  }

  /** A precomposed Latin-1 letter normalises to its lower-cased base letter. */
  lemma NormalizeAccented(c: char)
    requires IsPrecomposed(c)
    ensures Normalize([c]) == [LowerChar(Latin1Decomposition(c).value.0)]
  {
    var b, m := Latin1Decomposition(c).value.0, Latin1Decomposition(c).value.1;
    assert [c][1..] == [];
    assert Nfd([c]) == [b, m];
    FilterAppend([b], [m], NotMark);
    FilterSingleton(b, NotMark);
    FilterSingleton(m, NotMark);
    assert LowerCase([b]) == [LowerChar(b)];
    FilterSingleton(LowerChar(b), NotWhitespace);
  }

  /** What one character contributes to a normalised name. */
  function NormalizeChar(c: char): (r: string)
    ensures |r| <= 1
  {
    if IsPrecomposed(c) then [LowerChar(Latin1Decomposition(c).value.0)]
    else if IsWhitespace(c) || IsCombiningMark(c) then []
    else [LowerChar(c)]
  }

  /** Normalisation read one character at a time. */
  function NormalizeByChar(s: string): (r: string)
    ensures |r| <= |s|
  {
    if s == [] then [] else NormalizeChar(s[0]) + NormalizeByChar(s[1..])
  }

  /** The staged pipeline (decompose the whole string, then strip marks,
      lower-case and strip whitespace) equals the character-by-character
      reading: every stage works on each character independently. */
  lemma {:induction false} NormalizeAgreesByChar(s: string)
    ensures Normalize(s) == NormalizeByChar(s)
  {
    if s != [] {
      assert s == [s[0]] + s[1..];
      NormalizeAppend([s[0]], s[1..]);
      if IsPrecomposed(s[0]) {
        NormalizeAccented(s[0]);
      } else {
        NormalizePlain(s[0]);
      }
      NormalizeAgreesByChar(s[1..]);
    }
  }

  lemma {:induction false} ByCharAppend(a: string, b: string)
    ensures NormalizeByChar(a + b) == NormalizeByChar(a) + NormalizeByChar(b)
  {
    if a == [] {
      assert a + b == b;
    } else {
      assert (a + b)[0] == a[0];
      assert (a + b)[1..] == a[1..] + b;
      ByCharAppend(a[1..], b);
    }
  }

  /** `s` is a word of ASCII letters and `t` is its lower-cased spelling. */
  predicate LetterWord(s: string, t: string)
  {
    && (forall i :: 0 <= i < |s| ==> IsAsciiUpper(s[i]) || IsAsciiLower(s[i]))
    && |s| == |t|
    && (forall i :: 0 <= i < |s| ==> t[i] == LowerChar(s[i]))
  }

  /** `s` is a run of spaces. */
  predicate Blank(s: string)
  {
    forall i :: 0 <= i < |s| ==> s[i] == ' '
  }

  /** An ASCII letter normalises to its lower-case form. */
  lemma LetterChar(c: char)
    requires IsAsciiUpper(c) || IsAsciiLower(c)
    ensures NormalizeChar(c) == [LowerChar(c)]
  {
    assert !IsPrecomposed(c);
  }

  /** ASCII letters normalise to their lower-case forms. */
  lemma {:induction false} ByCharWord(s: string, t: string)
    requires LetterWord(s, t)
    ensures NormalizeByChar(s) == t
  {
    if s != [] {
      LetterChar(s[0]);
      assert forall i :: 0 <= i < |s| - 1 ==> s[1..][i] == s[i + 1] && t[1..][i] == t[i + 1];
      ByCharWord(s[1..], t[1..]);
      assert t == [t[0]] + t[1..];
    }
  }

  /** Spaces normalise to nothing. */
  lemma {:induction false} ByCharBlank(s: string)
    requires Blank(s)
    ensures NormalizeByChar(s) == []
  {
    if s != [] {
      assert !IsPrecomposed(s[0]);
      ByCharBlank(s[1..]);
    }
  }

  /** A precomposed letter normalises to its lower-cased base letter. */
  lemma ByCharAccented(c: char, b: char)
    requires IsPrecomposed(c) && b == LowerChar(Latin1Decomposition(c).value.0)
    ensures NormalizeByChar([c]) == [b]
  {
    assert [c][1..] == [];
  }

  /** One piece of a name and what it normalises to: a word of ASCII
      letters, a run of spaces, or a single precomposed letter. */
  predicate Piece(s: string, t: string)
  {
    || LetterWord(s, t)
    || (Blank(s) && t == [])
    || (|s| == 1 && IsPrecomposed(s[0]) && t == [LowerChar(Latin1Decomposition(s[0]).value.0)])
  }

  function Concat(ss: seq<string>): (r: string)
  {
    if ss == [] then [] else ss[0] + Concat(ss[1..])
  }

  lemma {:induction false} ByCharPieces(ps: seq<string>, ts: seq<string>)
    requires |ps| == |ts| && forall i :: 0 <= i < |ps| ==> Piece(ps[i], ts[i])
    ensures NormalizeByChar(Concat(ps)) == Concat(ts)
  {
    if ps != [] {
      var p, t := ps[0], ts[0];
      assert Piece(p, t);
      if LetterWord(p, t) {
        ByCharWord(p, t);
      } else if Blank(p) {
        ByCharBlank(p);
      } else {
        assert p == [p[0]];
      }
      ByCharPieces(ps[1..], ts[1..]);
      ByCharAppend(p, Concat(ps[1..]));
    }
  }

  /** A name built from pieces normalises to the pieces' normal forms run
      together. */
  lemma PiecesNormalize(ps: seq<string>, ts: seq<string>)
    requires |ps| == |ts| && forall i :: 0 <= i < |ps| ==> Piece(ps[i], ts[i])
    ensures Normalize(Concat(ps)) == Concat(ts)
  {
    NormalizeAgreesByChar(Concat(ps));
    ByCharPieces(ps, ts);
  }

  lemma AccentedSpaceNamePieces()
    ensures Concat(["\U{00C9}", "quipes", "  ", "Technique"]) == "\U{00C9}quipes  Technique"
  {
    assert Concat(["quipes", "  ", "Technique"]) == "quipes  Technique";
  }

  lemma AccentedSpaceKeyPieces()
    ensures Concat(["e", "quipes", "", "technique"]) == "equipestechnique"
  {
  }

  /** A space spelt "\U{00C9}quipes  Technique", with a capital accented E
      and two spaces, normalises to the same name as "Equipes Technique". */
  lemma NormalizedAccentedSpaceName()
    ensures Normalize("\U{00C9}quipes  Technique") == "equipestechnique"
  {
    PiecesNormalize(["\U{00C9}", "quipes", "  ", "Technique"], ["e", "quipes", "", "technique"]);
    AccentedSpaceNamePieces();
    AccentedSpaceKeyPieces();
  }

  lemma ConcatOne(s: string)
    ensures Concat([s]) == s
  {
    assert [s][1..] == [];
  }

  lemma SpaceNamePieces()
    ensures Concat(["Equipes", " ", "Technique"]) == "Equipes Technique"
    ensures Concat(["equipes", "", "technique"]) == "equipestechnique"
  {
  }

  /** The custom-field name "Traitement" normalises to "traitement". */
  lemma NormalizedTraitement()
    ensures Normalize("Traitement") == "traitement"
  {
    PiecesNormalize(["Traitement"], ["traitement"]);
    ConcatOne("Traitement");
    ConcatOne("traitement");
  }

  /** The custom-field name "Audit" normalises to "audit". */
  lemma NormalizedAudit()
    ensures Normalize("Audit") == "audit"
  {
    PiecesNormalize(["Audit"], ["audit"]);
    ConcatOne("Audit");
    ConcatOne("audit");
  }

  /** The space name "Equipes Technique" normalises to "equipestechnique". */
  lemma NormalizedSpaceName()
    ensures Normalize("Equipes Technique") == "equipestechnique"
  {
    PiecesNormalize(["Equipes", " ", "Technique"], ["equipes", "", "technique"]);
    SpaceNamePieces();
  }

  lemma ListNamePieces()
    ensures Concat(["Audit", " ", "de", " ", "s", "\U{00E9}", "curit", "\U{00E9}"]) == "Audit de s\U{00E9}curit\U{00E9}"
  {
    assert Concat(["s", "\U{00E9}", "curit", "\U{00E9}"]) == "s\U{00E9}curit\U{00E9}";
  }

  lemma ListKeyPieces()
    ensures Concat(["audit", "", "de", "", "s", "e", "curit", "e"]) == "auditdesecurite"
  {
    assert Concat(["s", "e", "curit", "e"]) == "securite";
  }

  /** The list name "Audit de s\U{00E9}curit\U{00E9}" normalises to
      "auditdesecurite". */
  lemma NormalizedListName()
    ensures Normalize("Audit de s\U{00E9}curit\U{00E9}") == "auditdesecurite"
  {
    PiecesNormalize(["Audit", " ", "de", " ", "s", "\U{00E9}", "curit", "\U{00E9}"],
                    ["audit", "", "de", "", "s", "e", "curit", "e"]);
    ListNamePieces();
    ListKeyPieces();
  }
}
