/** The temporary-password generator: ten characters drawn from a
    70-character set, then one fixed character appended for each character
    class (upper case, lower case, digit, special) the draw lacks. The ten
    draws of `Math.floor(Math.random() * 70)` are a parameter. */
module PasswordGenerator {
  import opened CharClasses

  /** The 70 characters of the draw, upper case first. */
  const Charset := Uppercase + Lowercase + Numbers + SpecialChars
  const DrawLength := 10
  /** The characters that may be appended, in the order of the checks. */
  const Fillers := "Aa1@"

  predicate ValidDraws(draws: seq<nat>) {
    |draws| == DrawLength && forall i :: 0 <= i < |draws| ==> draws[i] < |Charset|
  }

  /** The characters the draws pick. */
  function Drawn(draws: seq<nat>): (r: string)
    requires ValidDraws(draws)
    ensures |r| == DrawLength
    ensures forall i :: 0 <= i < |r| ==> r[i] == Charset[draws[i]]
  {
    seq(DrawLength, i requires 0 <= i < DrawLength => Charset[draws[i]])
  }

  /** The filler of a class: 'A', 'a', '1' or '@'. */
  function Filler(cls: CharClass): (c: char)
    ensures InClass(c, cls)
    ensures forall other: CharClass :: InClass(c, other) <==> other == cls
  {
    match cls
    case Upper => 'A'
    case Lower => 'a'
    case Digit => '1'
    case Special => '@'
  }

  /** The filler of `cls` if `s` lacks that class. */
  function FillIfMissing(s: string, cls: CharClass): string {
    if HasClass(s, cls) then "" else [Filler(cls)]
  }

  /** What the four checks append to the draw. */
  function Completion(drawn: string): string {
    FillIfMissing(drawn, Upper) + FillIfMissing(drawn, Lower)
    + FillIfMissing(drawn, Digit) + FillIfMissing(drawn, Special)
  }

  /** A filler answers its own class test and no other. */
  lemma FillerClasses(cls: CharClass, other: CharClass)
    ensures HasClass([Filler(cls)], other) <==> other == cls
  {
    assert [Filler(cls)][0] == Filler(cls);
  }

  /** Appending the filler of `cls` when needed leaves every other class test
      as it was. */
  lemma FillKeepsOthers(s: string, cls: CharClass, other: CharClass)
    requires other != cls
    ensures HasClass(s + FillIfMissing(s, cls), other) == HasClass(s, other)
    ensures HasClass(s + FillIfMissing(s, cls), cls)
  {
    HasClassConcat(s, FillIfMissing(s, cls), other);
    HasClassConcat(s, FillIfMissing(s, cls), cls);
    if !HasClass(s, cls) {
      FillerClasses(cls, other);
      FillerClasses(cls, cls);
    } else {
      assert s + FillIfMissing(s, cls) == s;
    }
  }

  /** `generatePassword`, given its ten draws. */
  method GeneratePassword(draws: seq<nat>) returns (password: string)
    requires ValidDraws(draws)
    ensures password == Drawn(draws) + Completion(Drawn(draws))
  {
    password := "";
    for i := 0 to DrawLength
      invariant password == Drawn(draws)[..i]
    {
      password := password + [Charset[draws[i]]];
    }
    ghost var drawn := password;
    assert drawn == Drawn(draws);
    if !HasClass(password, Upper) {
      password := password + [Filler(Upper)];
    }
    ghost var p1 := password;
    if !HasClass(password, Lower) {
      password := password + [Filler(Lower)];
    }
    ghost var p2 := password;
    if !HasClass(password, Digit) {
      password := password + [Filler(Digit)];
    }
    ghost var p3 := password;
    if !HasClass(password, Special) {
      password := password + [Filler(Special)];
    }
    assert password == Checked(Checked(Checked(Checked(drawn, Upper), Lower), Digit), Special) by {
      assert p1 == Checked(drawn, Upper);
      assert p2 == Checked(p1, Lower);
      assert p3 == Checked(p2, Digit);
    }
    ChecksComplete(drawn);
  }

  /** One check of `generatePassword`: append the class's filler if the
      password so far lacks that class. */
  function Checked(s: string, cls: CharClass): string {
    if HasClass(s, cls) then s else s + [Filler(cls)]
  }

  /** The four checks in a row append exactly `Completion` of the draw. */
  lemma ChecksComplete(drawn: string)
    ensures Checked(Checked(Checked(Checked(drawn, Upper), Lower), Digit), Special) == drawn + Completion(drawn)
  {
    var u, l := FillIfMissing(drawn, Upper), FillIfMissing(drawn, Lower);
    var d, sp := FillIfMissing(drawn, Digit), FillIfMissing(drawn, Special);
    LaterChecksSeeTheDraw(drawn);
    assert Checked(drawn, Upper) == drawn + u;
    assert Checked(drawn + u, Lower) == drawn + u + l;
    assert Checked(drawn + u + l, Digit) == drawn + u + l + d;
    assert Checked(drawn + u + l + d, Special) == drawn + u + l + d + sp;
    assert drawn + u + l + d + sp == drawn + (u + l + d + sp);
  }

  /** Each check of `generatePassword` sees the answer it would give on the
      bare draw, because the fillers appended before it are of other classes. */
  lemma LaterChecksSeeTheDraw(drawn: string)
    ensures var u, l, d := FillIfMissing(drawn, Upper), FillIfMissing(drawn, Lower), FillIfMissing(drawn, Digit);
      && FillIfMissing(drawn + u, Lower) == l
      && FillIfMissing(drawn + u + l, Digit) == d
      && FillIfMissing(drawn + u + l + d, Special) == FillIfMissing(drawn, Special)
  {
    FillKeepsOthers(drawn, Upper, Lower);
    ClassAfterFills(drawn, Digit);
    ClassAfterFills(drawn, Special);
  }

  /** The later checks see the same answer as they would on the bare draw. */
  lemma ClassAfterFills(drawn: string, cls: CharClass)
    requires cls == Digit || cls == Special
    ensures var u, l, d := FillIfMissing(drawn, Upper), FillIfMissing(drawn, Lower), FillIfMissing(drawn, Digit);
      && HasClass(drawn + u + l, cls) == HasClass(drawn, cls)
      && (cls == Special ==> HasClass(drawn + u + l + d, cls) == HasClass(drawn, cls))
  {
    var u, l, d := FillIfMissing(drawn, Upper), FillIfMissing(drawn, Lower), FillIfMissing(drawn, Digit);
    FillAbsent(drawn, Upper, cls);
    FillAbsent(drawn, Lower, cls);
    HasClassConcat(drawn, u, cls);
    HasClassConcat(drawn + u, l, cls);
    if cls == Special {
      FillAbsent(drawn, Digit, cls);
      HasClassConcat(drawn + u + l, d, cls);
    }
  }

  /** A filler for `cls` never answers the test of another class. */
  lemma FillAbsent(s: string, cls: CharClass, other: CharClass)
    requires cls != other
    ensures !HasClass(FillIfMissing(s, cls), other)
  {
    if !HasClass(s, cls) {
      FillerClasses(cls, other);
    }
  }

  /** The completed password has every class. */
  lemma CompletionHasAllClasses(drawn: string)
    ensures AllClasses(drawn + Completion(drawn))
  {
    var u, l := FillIfMissing(drawn, Upper), FillIfMissing(drawn, Lower);
    var d, s := FillIfMissing(drawn, Digit), FillIfMissing(drawn, Special);
    assert drawn + Completion(drawn) == drawn + u + l + d + s;
    forall cls: CharClass
      ensures HasClass(drawn + Completion(drawn), cls)
    {
      HasClassConcat(drawn, u, cls);
      HasClassConcat(drawn + u, l, cls);
      HasClassConcat(drawn + u + l, d, cls);
      HasClassConcat(drawn + u + l + d, s, cls);
      FillKeepsOthers(drawn, cls, if cls == Upper then Lower else Upper);
      HasClassConcat(drawn, FillIfMissing(drawn, cls), cls);
    }
  }

  /** Position of a filler in "Aa1@". */
  function FillerRank(c: char): nat {
    if c == 'A' then 0 else if c == 'a' then 1 else if c == '1' then 2 else 3
  }

  /** The appended characters are an in-order subsequence of "Aa1@", each
      present exactly when its class is missing; a draw with every class is
      left unchanged. */
  lemma CompletionShape(drawn: string)
    ensures var c := Completion(drawn);
      && |c| <= 4
      && (forall i :: 0 <= i < |c| ==> c[i] in Fillers)
      && (forall i, j :: 0 <= i < j < |c| ==> FillerRank(c[i]) < FillerRank(c[j]))
      && (forall cls: CharClass :: Filler(cls) in c <==> !HasClass(drawn, cls))
      && (AllClasses(drawn) ==> c == "")
  {
    var u, l := FillIfMissing(drawn, Upper), FillIfMissing(drawn, Lower);
    var d, s := FillIfMissing(drawn, Digit), FillIfMissing(drawn, Special);
    var c := Completion(drawn);
    assert c == u + l + d + s;
    var nu, nl, nd := |u|, |u| + |l|, |u| + |l| + |d|;
    forall i | 0 <= i < |c|
      ensures c[i] in Fillers
      ensures FillerRank(c[i]) == (if i < nu then 0 else if i < nl then 1 else if i < nd then 2 else 3)
    {
      if i < nu { assert c[i] == u[i]; }
      else if i < nl { assert c[i] == l[i - nu]; }
      else if i < nd { assert c[i] == d[i - nl]; }
      else { assert c[i] == s[i - nd]; }
    }
    forall cls: CharClass
      ensures Filler(cls) in c <==> !HasClass(drawn, cls)
    {
      if Filler(cls) in c {
        var i :| 0 <= i < |c| && c[i] == Filler(cls);
        assert FillerRank(c[i]) == (if i < nu then 0 else if i < nl then 1 else if i < nd then 2 else 3);
      }
      if !HasClass(drawn, cls) {
        match cls
        case Upper => assert c[0] == 'A';
        case Lower => assert c[nu] == 'a';
        case Digit => assert c[nl] == '1';
        case Special => assert c[nd] == '@';
      }
    }
  }

  /** The generator's promises: it starts with the draw, every character is
      from the charset, every class is present and the length is 10 to 14. */
  lemma GeneratedPasswordShape(draws: seq<nat>)
    requires ValidDraws(draws)
    ensures var p := Drawn(draws) + Completion(Drawn(draws));
      && p[..DrawLength] == Drawn(draws)
      && (forall i :: 0 <= i < |p| ==> p[i] in Charset)
      && AllClasses(p)
      && 10 <= |p| <= 14
  {
    var drawn := Drawn(draws);
    var c := Completion(drawn);
    var p := drawn + c;
    CompletionHasAllClasses(drawn);
    CompletionShape(drawn);
    assert Charset[0] == 'A' && Charset[26] == 'a' && Charset[53] == '1' && Charset[63] == '@';
    forall i | 0 <= i < |p|
      ensures p[i] in Charset
    {
      if i < |drawn| {
        assert p[i] == Charset[draws[i]];
      } else {
        assert p[i] == c[i - |drawn|];
      }
    }
  }
}
