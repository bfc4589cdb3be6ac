/**
  The four character classes a password is drawn from, each bound to the fixed
  ASCII alphabet the generator uses (uppercase and lowercase letters, decimal
  digits and the 32 ASCII punctuation characters).
 */
module CharSets {

  datatype CharClass = Uppercase | Lowercase | Digit | Special

  const AsciiUppercase: string := "ABCDEFGHIJKLMNOPQRSTUVWXYZ"
  const AsciiLowercase: string := "abcdefghijklmnopqrstuvwxyz"
  const Digits: string := "0123456789"
  /** The ASCII punctuation characters, in code-point order. */
  const Punctuation: string := "!\"#$%&'()*+,-./:;<=>?@[\\]^_`{|}~"

  /** The alphabet bound to a class. */
  function Alphabet(cls: CharClass): (s: string)
    ensures |s| > 0
  {
    match cls
    case Uppercase => AsciiUppercase
    case Lowercase => AsciiLowercase
    case Digit => Digits
    case Special => Punctuation
  }

  /** Independent reference definition of each class, by ASCII code-point range. */
  predicate InClass(cls: CharClass, c: char)
  {
    match cls
    case Uppercase => 'A' <= c <= 'Z'
    case Lowercase => 'a' <= c <= 'z'
    case Digit => '0' <= c <= '9'
    case Special =>
      ('!' <= c <= '/') || (':' <= c <= '@') || ('[' <= c <= '`') || ('{' <= c <= '~')
  }

  /** Each literal alphabet holds exactly the characters of its code-point range. */
  lemma AlphabetIsRange(cls: CharClass, c: char)
    ensures c in Alphabet(cls) <==> InClass(cls, c)
  {
    match cls
    case Uppercase => UppercaseIsRange(c);
    case Lowercase => LowercaseIsRange(c);
    case Digit => DigitsIsRange(c);
    case Special => PunctuationIsRange(c);
  }

  lemma UppercaseIsRange(c: char)
    ensures c in AsciiUppercase <==> InClass(Uppercase, c)
  {
  }

  lemma LowercaseIsRange(c: char)
    ensures c in AsciiLowercase <==> InClass(Lowercase, c)
  {
  }

  lemma DigitsIsRange(c: char)
    ensures c in Digits <==> InClass(Digit, c)
  {
  }

  lemma PunctuationIsRange(c: char)
    ensures c in Punctuation <==> InClass(Special, c)
  {
  }

  /** No character belongs to two classes. */
  lemma ClassesDisjoint(a: CharClass, b: CharClass, c: char)
    requires a != b
    ensures !(InClass(a, c) && InClass(b, c))
  {
  }
}
