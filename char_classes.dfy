/** The four character classes both password generators draw from. */
module CharClasses {

  const Uppercase := "ABCDEFGHIJKLMNOPQRSTUVWXYZ"
  const Lowercase := "abcdefghijklmnopqrstuvwxyz"
  const Numbers := "0123456789"
  const SpecialChars := "!@#$%^&*"

  /** `[A-Z]`, `[a-z]`, `[0-9]` and `[!@#$%^&*]`. */
  datatype CharClass = Upper | Lower | Digit | Special

  function Chars(cls: CharClass): string {
    match cls
    case Upper => Uppercase
    case Lower => Lowercase
    case Digit => Numbers
    case Special => SpecialChars
  }

  predicate InClass(c: char, cls: CharClass) {
    match cls
    case Upper => 'A' <= c <= 'Z'
    case Lower => 'a' <= c <= 'z'
    case Digit => '0' <= c <= '9'
    case Special => c in SpecialChars
  }

  /** The regular-expression test for one class. */
  predicate HasClass(s: string, cls: CharClass) {
    exists i :: 0 <= i < |s| && InClass(s[i], cls)
  }

  predicate AllClasses(s: string) {
    forall cls: CharClass :: HasClass(s, cls)
  }

  /** No special character is a letter or a digit. */
  lemma SpecialsAreNotAlphanumeric(c: char)
    requires c in SpecialChars
    ensures !('A' <= c <= 'Z') && !('a' <= c <= 'z') && !('0' <= c <= '9')
  {
    var i :| 0 <= i < |SpecialChars| && SpecialChars[i] == c;
    assert i < 8;
    if i == 0 { assert c == '!'; }
    else if i == 1 { assert c == '@'; }
    else if i == 2 { assert c == '#'; }
    else if i == 3 { assert c == '$'; }
    else if i == 4 { assert c == '%'; }
    else if i == 5 { assert c == '^'; }
    else if i == 6 { assert c == '&'; }
    else { assert c == '*'; }
  }

  /** The class strings are the code-point ranges they spell. */
  lemma ClassCodes(i: nat)
    ensures i < 26 ==> Uppercase[i] as int == 'A' as int + i && Lowercase[i] as int == 'a' as int + i
    ensures i < 10 ==> Numbers[i] as int == '0' as int + i
  {
  }

  /** Each class string holds characters of its class only, and the classes
      do not overlap. */
  lemma ClassChars(cls: CharClass, i: nat)
    requires i < |Chars(cls)|
    ensures forall other: CharClass :: InClass(Chars(cls)[i], other) <==> other == cls
  {
    var c := Chars(cls)[i];
    ClassCodes(i);
    if c in SpecialChars {
      SpecialsAreNotAlphanumeric(c);
    }
    if cls == Special {
      assert c in SpecialChars;
    }
  }

  /** A class test on a concatenation is the test on either side. */
  lemma HasClassConcat(s: string, t: string, cls: CharClass)
    ensures HasClass(s + t, cls) <==> HasClass(s, cls) || HasClass(t, cls)
  {
    var st := s + t;
    if HasClass(st, cls) {
      var i :| 0 <= i < |st| && InClass(st[i], cls);
      if i < |s| {
        assert s[i] == st[i];
      } else {
        assert t[i - |s|] == st[i];
      }
    }
    if HasClass(s, cls) {
      var i :| 0 <= i < |s| && InClass(s[i], cls);
      assert st[i] == s[i];
    }
    if HasClass(t, cls) {
      var i :| 0 <= i < |t| && InClass(t[i], cls);
      assert st[|s| + i] == t[i];
    }
  }
}
