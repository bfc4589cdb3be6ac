/**
  The password generator: a strength tier selects a universe of characters
  and a list of mandatory classes; one character is drawn from each mandatory
  class, the rest of the length is filled from the universe, and the whole is
  shuffled.

  The process-wide random source is modelled by nondeterminism: `Choice`
  returns some element of its argument and `Shuffle` some permutation of its
  array. Every property below therefore holds whatever the random source does.
 */
module PasswordGenerator {
  import opened CharSets

  /** The length range the form accepts before it calls the generator. */
  const MinPassLength: int := 4
  const MaxPassLength: int := 80

  const TooShortMessage: string := "Error: Length too short for selected strength."

  /** What one call produces: a password, or the rejection of a length that
      cannot hold one character of every mandatory class. */
  datatype Outcome = Password(text: string) | TooShort
  {
    /** The string the generator hands back to its caller in either case. */
    function Rendered(): string
    {
      match this
      case Password(text) => text
      case TooShort => TooShortMessage
    }
  }

  // ---------------------------------------------------------------------------
  // Tiers

  /** The classes whose alphabets make up the universe of a tier. Letters are
      always present; any strength other than "medium" and "high" gets only
      them, exactly like "low". */
  function UniverseClasses(strength: string): (cs: seq<CharClass>)
    ensures |cs| >= 2 && cs[0] == Uppercase && cs[1] == Lowercase
    ensures Digit in cs <==> strength == "medium" || strength == "high"
    ensures Special in cs <==> strength == "high"
  {
    if strength == "medium" then [Uppercase, Lowercase, Digit]
    else if strength == "high" then [Uppercase, Lowercase, Digit, Special]
    else [Uppercase, Lowercase]
  }

  /** The classes of which one character is guaranteed, in drawing order. */
  function MandatoryClasses(strength: string): (cs: seq<CharClass>)
    ensures cs == [] <==> strength != "medium" && strength != "high"
    ensures cs != [] ==> cs == UniverseClasses(strength)
  {
    if strength == "medium" then [Uppercase, Lowercase, Digit]
    else if strength == "high" then [Uppercase, Lowercase, Digit, Special]
    else []
  }

  /** The alphabets of `classes`, concatenated in order. */
  function Union(classes: seq<CharClass>): string
  {
    if classes == [] then [] else Alphabet(classes[0]) + Union(classes[1..])
  }

  /** The characters filler is drawn from. */
  function Universe(strength: string): (u: string)
    ensures |u| == if strength == "medium" then 62 else if strength == "high" then 94 else 52
  {
    UnionLength(UniverseClasses(strength));
    TierSize(strength);
    Union(UniverseClasses(strength))
  }

  /** The number of characters of each class's alphabet. */
  function AlphabetSize(cls: CharClass): nat
  {
    match cls
    case Uppercase => 26
    case Lowercase => 26
    case Digit => 10
    case Special => 32
  }

  /** The summed alphabet sizes of `classes`. */
  function TotalSize(classes: seq<CharClass>): nat
  {
    if classes == [] then 0 else AlphabetSize(classes[0]) + TotalSize(classes[1..])
  }

  /** The length of a concatenation of alphabets is the sum of their sizes. */
  lemma {:induction false} UnionLength(classes: seq<CharClass>)
    ensures |Union(classes)| == TotalSize(classes)
  {
    if classes != [] {
      UnionLength(classes[1..]);
      assert |Alphabet(classes[0])| == AlphabetSize(classes[0]);
    }
  }

  /** The summed alphabet sizes of each tier: 52, 62 or 94 characters. */
  lemma TierSize(strength: string)
    ensures TotalSize(UniverseClasses(strength)) ==
      if strength == "medium" then 62 else if strength == "high" then 94 else 52
  {
    var cs := UniverseClasses(strength);
    assert TotalSize(cs) == 52 + TotalSize(cs[2..]) by {
      assert cs[1..][1..] == cs[2..];
    }
    if strength == "medium" {
      assert cs[2..] == [Digit] && [Digit][1..] == [];
    } else if strength == "high" {
      assert cs[2..] == [Digit, Special] && [Digit, Special][1..] == [Special];
      assert [Special][1..] == [];
    } else {
      assert cs[2..] == [];
    }
  }

  /** A character is in a concatenation of alphabets exactly when it is in
      one of them. */
  lemma {:induction false} UnionMembership(classes: seq<CharClass>, c: char)
    ensures c in Union(classes) <==> exists cls :: cls in classes && c in Alphabet(cls)
  {
    if classes != [] {
      var head, rest := classes[0], classes[1..];
      assert classes == [head] + rest;
      UnionMembership(rest, c);
      assert forall cls :: cls in classes <==> cls == head || cls in rest;
    }
  }

  /** The universe of a tier, characterised by code-point ranges. */
  lemma UniverseMembership(strength: string, c: char)
    ensures c in Universe(strength) <==> exists cls :: cls in UniverseClasses(strength) && InClass(cls, c)
  {
    UnionMembership(UniverseClasses(strength), c);
    forall cls | cls in UniverseClasses(strength)
      ensures c in Alphabet(cls) <==> InClass(cls, c)
    {
      AlphabetIsRange(cls, c);
    }
  }

  /** Extending a concatenation of alphabets by one more alphabet. */
  lemma {:induction false} UnionSnoc(classes: seq<CharClass>, cls: CharClass)
    ensures Union(classes + [cls]) == Union(classes) + Alphabet(cls)
  {
    if classes == [] {
      assert [] + [cls] == [cls];
      assert Union([cls]) == Alphabet(cls) + Union([]);
    } else {
      assert (classes + [cls])[0] == classes[0];
      assert (classes + [cls])[1..] == classes[1..] + [cls];
      UnionSnoc(classes[1..], cls);
      var head, rest := Alphabet(classes[0]), Union(classes[1..]);
      assert head + (rest + Alphabet(cls)) == (head + rest) + Alphabet(cls);
    }
  }

  /** Every mandatory class also contributes to the universe, so guaranteed
      characters never fall outside it. */
  lemma MandatoryWithinUniverse(strength: string)
    ensures forall cls :: cls in MandatoryClasses(strength) ==> cls in UniverseClasses(strength)
  {
  }

  /** The form's length range (4 to 80) always admits every tier: the largest
      mandatory list has four classes. */
  lemma FormRangeAdmitsEveryTier(length: int, strength: string)
    requires MinPassLength <= length <= MaxPassLength
    ensures |MandatoryClasses(strength)| <= length
  {
  }

  // ---------------------------------------------------------------------------
  // What a generated password is

  /** Each guaranteed character was drawn from the alphabet of its class. */
  predicate DrawnFrom(guaranteed: string, classes: seq<CharClass>)
  {
    |guaranteed| == |classes| &&
    forall k :: 0 <= k < |classes| ==> guaranteed[k] in Alphabet(classes[k])
  }

  /** Drawing one more character from the alphabet of one more class. */
  lemma DrawnFromSnoc(guaranteed: string, classes: seq<CharClass>, c: char, cls: CharClass)
    requires DrawnFrom(guaranteed, classes) && c in Alphabet(cls)
    ensures DrawnFrom(guaranteed + [c], classes + [cls])
  {
  }

  /** Every character of `s` lies in `universe`. */
  predicate AllIn(s: string, universe: string)
  {
    forall i :: 0 <= i < |s| ==> s[i] in universe
  }

  /** `text` is a rearrangement of the guaranteed characters followed by the
      filler, each drawn as the tier prescribes. */
  ghost predicate Composed(text: string, guaranteed: string, filler: string, strength: string)
  {
    DrawnFrom(guaranteed, MandatoryClasses(strength)) &&
    AllIn(filler, Universe(strength)) &&
    multiset(text) == multiset(guaranteed + filler)
  }

  /** Some character of `text` belongs to `cls`. */
  predicate Covers(text: string, cls: CharClass)
  {
    exists i :: 0 <= i < |text| && InClass(cls, text[i])
  }

  /** The promise of the generator: the requested length, only characters of
      the universe, and at least one character of every mandatory class. */
  ghost predicate MeetsPolicy(text: string, length: int, strength: string)
  {
    |text| == length &&
    AllIn(text, Universe(strength)) &&
    forall cls :: cls in MandatoryClasses(strength) ==> Covers(text, cls)
  }

  /** Shuffling guaranteed characters and filler together keeps every promise. */
  lemma ComposedMeetsPolicy(text: string, guaranteed: string, filler: string, strength: string)
    requires Composed(text, guaranteed, filler, strength)
    ensures MeetsPolicy(text, |guaranteed| + |filler|, strength)
  {
    var mandatory := MandatoryClasses(strength);
    var both := guaranteed + filler;
    assert |text| == |both| by {
      assert |multiset(text)| == |multiset(both)|;
    }
    forall i | 0 <= i < |text|
      ensures text[i] in Universe(strength)
    {
      var c := text[i];
      assert c in multiset(text);
      assert c in both;
      var j :| 0 <= j < |both| && both[j] == c;
      if j < |guaranteed| {
        assert c in Alphabet(mandatory[j]);
        AlphabetIsRange(mandatory[j], c);
        MandatoryWithinUniverse(strength);
        assert mandatory[j] in mandatory;
        UniverseMembership(strength, c);
      } else {
        assert filler[j - |guaranteed|] == c;
      }
    }
    forall cls | cls in mandatory
      ensures Covers(text, cls)
    {
      var k :| 0 <= k < |mandatory| && mandatory[k] == cls;
      var c := guaranteed[k];
      assert both[k] == c;
      assert c in multiset(both);
      assert c in text;
      var i :| 0 <= i < |text| && text[i] == c;
      AlphabetIsRange(cls, c);
    }
  }

  /** A medium password has an uppercase letter, a lowercase letter and a
      digit, and no punctuation. */
  lemma MediumTier(text: string, length: int)
    requires MeetsPolicy(text, length, "medium")
    ensures Covers(text, Uppercase) && Covers(text, Lowercase) && Covers(text, Digit)
    ensures forall i :: 0 <= i < |text| ==> text[i] !in Punctuation
  {
    assert Uppercase in MandatoryClasses("medium");
    assert Lowercase in MandatoryClasses("medium");
    assert Digit in MandatoryClasses("medium");
    forall i | 0 <= i < |text|
      ensures text[i] !in Punctuation
    {
      var c := text[i];
      UniverseMembership("medium", c);
      var cls :| cls in UniverseClasses("medium") && InClass(cls, c);
      ClassesDisjoint(cls, Special, c);
      AlphabetIsRange(Special, c);
    }
  }

  /** A high password has a character of each of the four classes. */
  lemma HighTier(text: string, length: int)
    requires MeetsPolicy(text, length, "high")
    ensures Covers(text, Uppercase) && Covers(text, Lowercase)
    ensures Covers(text, Digit) && Covers(text, Special)
  {
    assert Uppercase in MandatoryClasses("high");
    assert Lowercase in MandatoryClasses("high");
    assert Digit in MandatoryClasses("high");
    assert Special in MandatoryClasses("high");
  }

  /** "low", and every unrecognised strength, guarantees nothing and yields
      letters only. */
  lemma LowTier(text: string, length: int, strength: string)
    requires strength != "medium" && strength != "high"
    requires MeetsPolicy(text, length, strength)
    ensures MandatoryClasses(strength) == []
    ensures forall i :: 0 <= i < |text| ==> InClass(Uppercase, text[i]) || InClass(Lowercase, text[i])
  {
    forall i | 0 <= i < |text|
      ensures InClass(Uppercase, text[i]) || InClass(Lowercase, text[i])
    {
      UniverseMembership(strength, text[i]);
    }
  }

  /** No tier's universe holds the space character. */
  lemma SpaceOutsideUniverse(strength: string)
    ensures ' ' !in Universe(strength)
  {
    UniverseMembership(strength, ' ');
  }

  /** The error string contains a space, which no universe holds, so a caller
      can always tell a password from the error. */
  lemma ErrorIsNeverAPassword(text: string, length: int, strength: string)
    requires MeetsPolicy(text, length, strength)
    ensures text != TooShortMessage
  {
    SpaceOutsideUniverse(strength);
    assert TooShortMessage[6] == ' ';
    if |text| > 6 {
      assert text[6] in Universe(strength);
    }
  }

  /** The string handed back tells the two outcomes apart: it is the error
      string exactly when the length was too short, whenever a password meets
      the policy. */
  lemma RenderedDistinguishes(o: Outcome, length: int, strength: string)
    requires o.Password? ==> MeetsPolicy(o.text, length, strength)
    ensures o.Rendered() == TooShortMessage <==> o.TooShort?
  {
    if o.Password? {
      ErrorIsNeverAPassword(o.text, length, strength);
    }
  }

  // ---------------------------------------------------------------------------
  // The random source

  /** One draw from a non-empty sequence. */
  method Choice(s: string) returns (c: char)
    requires |s| > 0
    ensures c in s
  {
    assert s[0] in s;
    c :| c in s;
  }

  /** An in-place shuffle (Fisher-Yates with an arbitrary index at each step):
      the array ends as some permutation of what it held. */
  method Shuffle(a: array<char>)
    modifies a
    ensures multiset(a[..]) == multiset(old(a[..]))
  {
    var i := a.Length;
    while i > 1
      invariant 0 <= i <= a.Length
      invariant multiset(a[..]) == multiset(old(a[..]))
    {
      i := i - 1;
      var j :| 0 <= j <= i;
      a[i], a[j] := a[j], a[i];
    }
  }

  /** `count` independent draws from a non-empty universe. */
  method DrawFiller(universe: string, count: int) returns (filler: string)
    requires |universe| > 0
    ensures |filler| == if count < 0 then 0 else count
    ensures AllIn(filler, universe)
  {
    filler := [];
    var i := 0;
    while i < count
      invariant |filler| == i <= if count < 0 then 0 else count
      invariant AllIn(filler, universe)
    {
      var c := Choice(universe);
      filler := filler + [c];
      i := i + 1;
    }
  }

  // ---------------------------------------------------------------------------
  // The generator

  /** The first phase of generation: the universe of the tier, built class by
      class, and one character drawn from each mandatory class. */
  method ResolveTier(strength: string) returns (allChars: string, guaranteedChars: string)
    ensures allChars == Universe(strength)
    ensures DrawnFrom(guaranteedChars, MandatoryClasses(strength))
  {
    allChars := [];
    guaranteedChars := [];
    // the classes whose alphabets allChars holds, and those drawn from so far
    ghost var contributing: seq<CharClass> := [];
    ghost var drawn: seq<CharClass> := [];

    allChars := allChars + Alphabet(Uppercase);
    UnionSnoc(contributing, Uppercase);
    contributing := contributing + [Uppercase];
    allChars := allChars + Alphabet(Lowercase);
    UnionSnoc(contributing, Lowercase);
    contributing := contributing + [Lowercase];

    if strength == "low" {
    } else if strength == "medium" {
      allChars := allChars + Alphabet(Digit);
      UnionSnoc(contributing, Digit);
      contributing := contributing + [Digit];
      var c := Choice(Alphabet(Uppercase));
      DrawnFromSnoc(guaranteedChars, drawn, c, Uppercase);
      guaranteedChars, drawn := guaranteedChars + [c], drawn + [Uppercase];
      c := Choice(Alphabet(Lowercase));
      DrawnFromSnoc(guaranteedChars, drawn, c, Lowercase);
      guaranteedChars, drawn := guaranteedChars + [c], drawn + [Lowercase];
      c := Choice(Alphabet(Digit));
      DrawnFromSnoc(guaranteedChars, drawn, c, Digit);
      guaranteedChars, drawn := guaranteedChars + [c], drawn + [Digit];
    } else if strength == "high" {
      allChars := allChars + Alphabet(Digit);
      UnionSnoc(contributing, Digit);
      contributing := contributing + [Digit];
      allChars := allChars + Alphabet(Special);
      UnionSnoc(contributing, Special);
      contributing := contributing + [Special];
      var c := Choice(Alphabet(Uppercase));
      DrawnFromSnoc(guaranteedChars, drawn, c, Uppercase);
      guaranteedChars, drawn := guaranteedChars + [c], drawn + [Uppercase];
      c := Choice(Alphabet(Lowercase));
      DrawnFromSnoc(guaranteedChars, drawn, c, Lowercase);
      guaranteedChars, drawn := guaranteedChars + [c], drawn + [Lowercase];
      c := Choice(Alphabet(Digit));
      DrawnFromSnoc(guaranteedChars, drawn, c, Digit);
      guaranteedChars, drawn := guaranteedChars + [c], drawn + [Digit];
      c := Choice(Alphabet(Special));
      DrawnFromSnoc(guaranteedChars, drawn, c, Special);
      guaranteedChars, drawn := guaranteedChars + [c], drawn + [Special];
    }
    assert contributing == UniverseClasses(strength);
    assert drawn == MandatoryClasses(strength);
  }

  /** Builds a password of `length` characters at the given strength. The
      ghost results record the guaranteed characters and the filler that were
      drawn. */
  method GeneratePassword(length: int, strength: string)
    returns (r: Outcome, ghost guaranteed: string, ghost filler: string)
    ensures DrawnFrom(guaranteed, MandatoryClasses(strength))
    ensures r.TooShort? <==> length < |MandatoryClasses(strength)|
    ensures r.TooShort? ==> filler == []
    ensures r.Password? ==> Composed(r.text, guaranteed, filler, strength)
    ensures r.Password? ==> MeetsPolicy(r.text, length, strength)
  {
    var allChars, guaranteedChars := ResolveTier(strength);
    guaranteed, filler := guaranteedChars, [];

    if |guaranteedChars| > length {
      r := TooShort;
      return;
    }

    var remainingLength := length - |guaranteedChars|;
    assert remainingLength >= 0;
    if remainingLength < 0 {
      remainingLength := 0;
    }

    var randomChars := DrawFiller(allChars, remainingLength);

    var finalPasswordList := guaranteedChars + randomChars;
    var a := new char[|finalPasswordList|](k requires 0 <= k < |finalPasswordList| => finalPasswordList[k]);
    assert a[..] == finalPasswordList;
    Shuffle(a);
    r := Password(a[..]);
    filler := randomChars;
    ComposedMeetsPolicy(r.text, guaranteed, filler, strength);
  }

  // ---------------------------------------------------------------------------
  // Scenarios

  /** Length 0 at low strength gives the empty password. */
  method LowZeroLength() returns (r: Outcome)
    ensures r == Password("")
  {
    ghost var g, f;
    r, g, f := GeneratePassword(0, "low");
  }

  /** Length 2 at high strength is rejected with the error string. */
  method HighTooShort() returns (shown: string)
    ensures shown == TooShortMessage
  {
    var r;
    ghost var g, f;
    r, g, f := GeneratePassword(2, "high");
    shown := r.Rendered();
  }

  /** Twelve characters at medium strength: an uppercase letter, a lowercase
      letter and a digit, and no punctuation. */
  method MediumTwelve() returns (shown: string)
    ensures |shown| == 12 && shown != TooShortMessage
    ensures Covers(shown, Uppercase) && Covers(shown, Lowercase) && Covers(shown, Digit)
    ensures forall i :: 0 <= i < |shown| ==> shown[i] !in Punctuation
    ensures AllIn(shown, Universe("medium"))
  {
    var r;
    ghost var g, f;
    r, g, f := GeneratePassword(12, "medium");
    shown := r.Rendered();
    MediumTier(shown, 12);
    ErrorIsNeverAPassword(shown, 12, "medium");
  }

  /** Eight characters at high strength: one of each of the four classes. */
  method HighEight() returns (shown: string)
    ensures |shown| == 8 && shown != TooShortMessage
    ensures Covers(shown, Uppercase) && Covers(shown, Lowercase)
    ensures Covers(shown, Digit) && Covers(shown, Special)
    ensures AllIn(shown, Universe("high"))
  {
    var r;
    ghost var g, f;
    r, g, f := GeneratePassword(8, "high");
    shown := r.Rendered();
    HighTier(shown, 8);
    ErrorIsNeverAPassword(shown, 8, "high");
  }
}
