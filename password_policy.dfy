/** The registration form's password policy: four independent criteria, each
    recomputed from the whole password on every change. */
module PasswordPolicy {

  /** The character classes of the three patterns `/[A-Z]/`, `/\d/` and
      `/[!@#$%^&*]/`. Without the `u` flag `\d` is exactly the ASCII digits,
      and inside a class `^`, `$` and `*` stand for themselves. */
  datatype CharClass = Uppercase | Digit | Special {
    /** Every character in any of the three classes is ASCII. */
    predicate Matches(c: char): (m: bool)
      ensures m ==> c as int < 0x80
    {
      match this
      case Uppercase => 'A' <= c <= 'Z'
      case Digit => '0' <= c <= '9'
      case Special => c in "!@#$%^&*"
    }
  }

  /** `/[...]/.test(s)`: the pattern is a single character class, so the search
      succeeds iff some character of `s` is in the class. A character outside
      the Basic Multilingual Plane is two surrogate code units in JavaScript; no
      surrogate is in any of the three classes, so testing whole characters
      gives the same answer. */
  function Test(cls: CharClass, s: string): (found: bool)
    ensures found <==> exists i :: 0 <= i < |s| && cls.Matches(s[i])
  {
    if s == [] then false
    else if cls.Matches(s[0]) then true
    else
      var rest := Test(cls, s[1..]);
      assert forall i :: 1 <= i < |s| ==> s[i] == s[1..][i - 1];
      rest
  }

  /** How many UTF-16 code units `c` occupies. */
  function CodeUnits(c: char): (n: nat)
    ensures 1 <= n <= 2
  {
    if c as int < 0x1_0000 then 1 else 2
  }

  /** JavaScript's `value.length`: the number of UTF-16 code units of `s`. It
      lies between the number of characters and twice that. */
  function Utf16Length(s: string): (n: nat)
    ensures |s| <= n <= 2 * |s|
  {
    if s == [] then 0 else CodeUnits(s[0]) + Utf16Length(s[1..])
  }

  /** The least acceptable password length. */
  const MinLength: nat := 6

  /** The `passwordCriteria` record. */
  datatype Criteria = Criteria(hasUppercase: bool, hasNumber: bool, hasSpecialChar: bool, isLongEnough: bool) {
    /** The panel's conjunction; its negation is the advisory's disjunctive test. */
    predicate AllMet(): (all: bool) {
      hasUppercase && hasNumber && hasSpecialChar && isLongEnough
    }
  }

  /** The criteria before the password has ever been changed. */
  const NoneMet: Criteria := Criteria(false, false, false, false)

  /** The four tests of `validatePassword`, each exactly characterised. */
  function Evaluate(password: string): (c: Criteria)
    ensures c.hasUppercase <==> exists i :: 0 <= i < |password| && 'A' <= password[i] <= 'Z'
    ensures c.hasNumber <==> exists i :: 0 <= i < |password| && '0' <= password[i] <= '9'
    ensures c.hasSpecialChar <==> exists i :: 0 <= i < |password| && password[i] in "!@#$%^&*"
    ensures c.isLongEnough <==> Utf16Length(password) >= MinLength
  {
    Criteria(Test(Uppercase, password), Test(Digit, password), Test(Special, password),
             Utf16Length(password) >= MinLength)
  }

  lemma {:induction false} Utf16LengthOfBmp(s: string)
    requires forall i :: 0 <= i < |s| ==> s[i] as int < 0x1_0000
    ensures Utf16Length(s) == |s|
  {
    if s != [] {
      assert forall i :: 0 <= i < |s[1..]| ==> s[1..][i] == s[i + 1];
      Utf16LengthOfBmp(s[1..]);
    }
  }

  lemma {:induction false} Utf16LengthAppend(s: string, t: string)
    ensures Utf16Length(s + t) == Utf16Length(s) + Utf16Length(t)
  {
    if s == [] {
      assert s + t == t;
    } else {
      assert (s + t)[0] == s[0];
      assert (s + t)[1..] == s[1..] + t;
      Utf16LengthAppend(s[1..], t);
    }
  }

  /** Six characters always meet the length criterion; for a password without
      characters outside the Basic Multilingual Plane the criterion is exactly
      "at least six characters". A shorter password of astral characters (an
      emoji counts twice) can still meet it. */
  lemma LongEnoughByCharacters(password: string)
    ensures |password| >= MinLength ==> Evaluate(password).isLongEnough
    ensures (forall i :: 0 <= i < |password| ==> password[i] as int < 0x1_0000) ==>
              (Evaluate(password).isLongEnough <==> |password| >= MinLength)
  {
    if forall i :: 0 <= i < |password| ==> password[i] as int < 0x1_0000 {
      Utf16LengthOfBmp(password);
    }
  }

  /** Typing more characters at the end never loses a criterion. */
  lemma AppendKeepsCriteria(s: string, t: string)
    ensures Evaluate(s).hasUppercase ==> Evaluate(s + t).hasUppercase
    ensures Evaluate(s).hasNumber ==> Evaluate(s + t).hasNumber
    ensures Evaluate(s).hasSpecialChar ==> Evaluate(s + t).hasSpecialChar
    ensures Evaluate(s).isLongEnough ==> Evaluate(s + t).isLongEnough
    ensures Evaluate(s).AllMet() ==> Evaluate(s + t).AllMet()
  {
    assert forall i :: 0 <= i < |s| ==> (s + t)[i] == s[i];
    Utf16LengthAppend(s, t);
  }
}
