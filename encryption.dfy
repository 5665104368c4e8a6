/** `generateSecurePassword`: one character of each class, then random
    characters of any class up to a length of 8 to 12, then a shuffle in
    place. Every random choice is a parameter: the four class draws, the
    real `r` in [0, 1) that picks the length, the fill draws, and the swaps
    the shuffle performs (any permutation is a sequence of swaps). */
module SecurePassword {
  import opened CharClasses

  /** `lowercase + uppercase + numbers + specialChars`. */
  const AllChars := Lowercase + Uppercase + Numbers + SpecialChars

  /** `Math.floor(r * 5) + 8`. */
  function PasswordLength(r: real): (n: int)
    requires 0.0 <= r < 1.0
    ensures 8 <= n <= 12
  {
    (r * 5.0).Floor + 8
  }

  /** The exchange of the characters at two positions. */
  datatype Swap = Swap(i: nat, j: nat)

  predicate SwapsWithin(swaps: seq<Swap>, n: int) {
    forall k :: 0 <= k < |swaps| ==> swaps[k].i < n && swaps[k].j < n
  }

  /** `s` after the swaps, in order. */
  function Shuffled(s: seq<char>, swaps: seq<Swap>): (r: seq<char>)
    requires SwapsWithin(swaps, |s|)
    ensures |r| == |s|
    decreases |swaps|
  {
    if |swaps| == 0 then s
    else
      var t := Shuffled(s, swaps[..|swaps| - 1]);
      var sw := swaps[|swaps| - 1];
      t[sw.i := t[sw.j]][sw.j := t[sw.i]]
  }

  /** The shuffle is a permutation. */
  lemma {:induction false} ShuffledPermutes(s: seq<char>, swaps: seq<Swap>)
    requires SwapsWithin(swaps, |s|)
    ensures multiset(Shuffled(s, swaps)) == multiset(s)
    decreases |swaps|
  {
    if |swaps| > 0 {
      var t := Shuffled(s, swaps[..|swaps| - 1]);
      var sw := swaps[|swaps| - 1];
      ShuffledPermutes(s, swaps[..|swaps| - 1]);
      var t1 := t[sw.i := t[sw.j]];
      assert multiset(t1) == multiset(t) - multiset{t[sw.i]} + multiset{t[sw.j]};
      assert multiset(t1[sw.j := t[sw.i]]) == multiset(t1) - multiset{t1[sw.j]} + multiset{t[sw.i]};
    }
  }

  predicate ValidDraws(lower: nat, upper: nat, digit: nat, special: nat, fill: seq<nat>, n: int) {
    && lower < |Lowercase| && upper < |Uppercase| && digit < |Numbers| && special < |SpecialChars|
    && |fill| == n - 4
    && forall k :: 0 <= k < |fill| ==> fill[k] < |AllChars|
  }

  /** The password before the shuffle: one lower-case letter, one upper-case
      letter, one digit, one special character, then the fill. */
  function Unshuffled(lower: nat, upper: nat, digit: nat, special: nat, fill: seq<nat>): (r: string)
    requires ValidDraws(lower, upper, digit, special, fill, |fill| + 4)
    ensures |r| == |fill| + 4
  {
    [Lowercase[lower], Uppercase[upper], Numbers[digit], SpecialChars[special]]
    + seq(|fill|, k requires 0 <= k < |fill| => AllChars[fill[k]])
  }

  /** `generateSecurePassword`, given every random choice. */
  method GenerateSecurePassword(lower: nat, upper: nat, digit: nat, special: nat,
                                r: real, fill: seq<nat>, swaps: seq<Swap>)
    returns (password: string)
    requires 0.0 <= r < 1.0
    requires ValidDraws(lower, upper, digit, special, fill, PasswordLength(r))
    requires SwapsWithin(swaps, PasswordLength(r))
    ensures password == Shuffled(Unshuffled(lower, upper, digit, special, fill), swaps)
  {
    var passwordArray := [Lowercase[lower], Uppercase[upper], Numbers[digit], SpecialChars[special]];
    var remainingLength := (r * 5.0).Floor + 8;
    for i := |passwordArray| to remainingLength
      invariant passwordArray == Unshuffled(lower, upper, digit, special, fill)[..i]
    {
      passwordArray := passwordArray + [AllChars[fill[i - 4]]];
    }
    assert passwordArray == Unshuffled(lower, upper, digit, special, fill);
    var a := new char[|passwordArray|](k requires 0 <= k < |passwordArray| => passwordArray[k]);
    for k := 0 to |swaps|
      invariant a[..] == Shuffled(passwordArray, swaps[..k])
    {
      var sw := swaps[k];
      assert swaps[..k + 1][..k] == swaps[..k];
      a[sw.i], a[sw.j] := a[sw.j], a[sw.i];
    }
    assert swaps[..|swaps|] == swaps;
    password := a[..];
  }

  /** Before the shuffle the first four characters are one lower-case letter,
      one upper-case letter, one digit and one special character, and every
      character is from `AllChars`. */
  lemma UnshuffledShape(lower: nat, upper: nat, digit: nat, special: nat, fill: seq<nat>)
    requires ValidDraws(lower, upper, digit, special, fill, |fill| + 4)
    ensures var s := Unshuffled(lower, upper, digit, special, fill);
      && InClass(s[0], Lower) && InClass(s[1], Upper) && InClass(s[2], Digit) && InClass(s[3], Special)
      && (forall k :: 0 <= k < |s| ==> s[k] in AllChars)
  {
    var s := Unshuffled(lower, upper, digit, special, fill);
    ClassChars(Lower, lower);
    ClassChars(Upper, upper);
    ClassChars(Digit, digit);
    ClassChars(Special, special);
    assert AllChars[lower] == s[0];
    assert AllChars[|Lowercase| + upper] == s[1];
    assert AllChars[|Lowercase| + |Uppercase| + digit] == s[2];
    assert AllChars[|Lowercase| + |Uppercase| + |Numbers| + special] == s[3];
    forall k | 4 <= k < |s|
      ensures s[k] in AllChars
    {
      assert s[k] == AllChars[fill[k - 4]];
    }
  }

  /** The generated password has 8 to 12 characters, all from `AllChars`,
      and contains every class. */
  lemma SecurePasswordShape(lower: nat, upper: nat, digit: nat, special: nat,
                            r: real, fill: seq<nat>, swaps: seq<Swap>)
    requires 0.0 <= r < 1.0
    requires ValidDraws(lower, upper, digit, special, fill, PasswordLength(r))
    requires SwapsWithin(swaps, PasswordLength(r))
    ensures var p := Shuffled(Unshuffled(lower, upper, digit, special, fill), swaps);
      && |p| == PasswordLength(r) && 8 <= |p| <= 12
      && (forall k :: 0 <= k < |p| ==> p[k] in AllChars)
      && AllClasses(p)
  {
    var s := Unshuffled(lower, upper, digit, special, fill);
    var p := Shuffled(s, swaps);
    UnshuffledShape(lower, upper, digit, special, fill);
    ShuffledPermutes(s, swaps);
    forall k | 0 <= k < |p|
      ensures p[k] in AllChars
    {
      assert p[k] in multiset(s);
    }
    forall cls: CharClass
      ensures HasClass(p, cls)
    {
      var at := match cls case Lower => 0 case Upper => 1 case Digit => 2 case Special => 3;
      assert s[at] in multiset(p);
      var k :| 0 <= k < |p| && p[k] == s[at];
    }
  }
}
