/** The sign-up page's password-strength meter: a score that counts the
    criteria a password meets, and the label shown for a score. */
module PasswordStrength {

  /** The character classes of the four regular expressions `/[a-z]/`,
      `/[A-Z]/`, `/[0-9]/` and `/[^A-Za-z0-9]/`. */
  datatype CharClass = Lower | Upper | Digit | Symbol

  predicate InClass(c: char, k: CharClass) {
    match k
    case Lower => 'a' <= c <= 'z'
    case Upper => 'A' <= c <= 'Z'
    case Digit => '0' <= c <= '9'
    case Symbol => !('a' <= c <= 'z' || 'A' <= c <= 'Z' || '0' <= c <= '9')
  }

  /** Every character falls into at least one class. */
  lemma EveryCharHasAClass(c: char)
    ensures exists k :: InClass(c, k)
  {
    if !InClass(c, Symbol) {
      assert InClass(c, Lower) || InClass(c, Upper) || InClass(c, Digit);
    }
  }

  /** `/[…]/.test(s)`: some character of `s` is in class `k`. */
  function Contains(s: string, k: CharClass): (r: bool)
    ensures r <==> exists i :: 0 <= i < |s| && InClass(s[i], k)
  {
    if s == [] then false
    else if InClass(s[0], k) then true
    else
      var rest := Contains(s[1..], k);
      assert forall i :: 1 <= i < |s| ==> s[i] == s[1..][i - 1];
      rest
  }

  /** One of the five things the meter rewards. */
  datatype Criterion = MinLength | Has(k: CharClass)

  /** The criteria, in the order the scorer checks them. */
  const AllCriteria: seq<Criterion> := [MinLength, Has(Lower), Has(Upper), Has(Digit), Has(Symbol)]

  predicate Meets(password: string, c: Criterion) {
    match c
    case MinLength => |password| >= 8
    case Has(k) => Contains(password, k)
  }

  /** How many of `cs` the password meets. */
  function CountMet(password: string, cs: seq<Criterion>): nat {
    if cs == [] then 0
    else (if Meets(password, cs[0]) then 1 else 0) + CountMet(password, cs[1..])
  }

  /** The score the meter shows: the number of criteria met. */
  function Strength(password: string): nat {
    CountMet(password, AllCriteria)
  }

  /** `calculatePasswordStrength`: one point per criterion, added step by step. */
  method CalculatePasswordStrength(password: string) returns (strength: int)
    ensures strength == Strength(password)
    ensures 0 <= strength <= 5
  {
    strength := 0;
    if |password| >= 8 { strength := strength + 1; }
    if Contains(password, Lower) { strength := strength + 1; }
    if Contains(password, Upper) { strength := strength + 1; }
    if Contains(password, Digit) { strength := strength + 1; }
    if Contains(password, Symbol) { strength := strength + 1; }
    ScoreIsCount(password);
  }

  /** The score, criterion by criterion. */
  lemma {:induction false} ScoreIsCount(password: string)
    ensures Strength(password) ==
      (if |password| >= 8 then 1 else 0) +
      (if Contains(password, Lower) then 1 else 0) +
      (if Contains(password, Upper) then 1 else 0) +
      (if Contains(password, Digit) then 1 else 0) +
      (if Contains(password, Symbol) then 1 else 0)
  {
    var c4 := [Has(Symbol)];
    var c3 := [Has(Digit)] + c4;
    var c2 := [Has(Upper)] + c3;
    var c1 := [Has(Lower)] + c2;
    assert AllCriteria == [MinLength] + c1;
    assert c4[1..] == [] && c3[1..] == c4 && c2[1..] == c3 && c1[1..] == c2;
    assert CountMet(password, c4) == if Contains(password, Symbol) then 1 else 0;
    assert CountMet(password, c3) == (if Contains(password, Digit) then 1 else 0) + CountMet(password, c4);
    assert CountMet(password, c2) == (if Contains(password, Upper) then 1 else 0) + CountMet(password, c3);
    assert CountMet(password, c1) == (if Contains(password, Lower) then 1 else 0) + CountMet(password, c2);
    assert Strength(password) == (if |password| >= 8 then 1 else 0) + CountMet(password, c1);
  }

  /** The score never exceeds the number of criteria. */
  lemma {:induction false} CountMetBounded(password: string, cs: seq<Criterion>)
    ensures CountMet(password, cs) <= |cs|
  {
    if cs != [] {
      CountMetBounded(password, cs[1..]);
    }
  }

  /** Scores range over 0..5, and 5 means every criterion is met. */
  lemma StrengthRange(password: string)
    ensures 0 <= Strength(password) <= 5
    ensures Strength(password) == 5 <==> forall c :: c in AllCriteria ==> Meets(password, c)
  {
    CountMetBounded(password, AllCriteria);
    ScoreIsCount(password);
    if Strength(password) == 5 {
      forall c | c in AllCriteria ensures Meets(password, c) {
        assert c == MinLength || c == Has(Lower) || c == Has(Upper) || c == Has(Digit) || c == Has(Symbol);
      }
    }
    if forall c :: c in AllCriteria ==> Meets(password, c) {
      assert AllCriteria[0] == MinLength && AllCriteria[1] == Has(Lower) && AllCriteria[2] == Has(Upper);
      assert AllCriteria[3] == Has(Digit) && AllCriteria[4] == Has(Symbol);
      assert Meets(password, AllCriteria[0]) && Meets(password, AllCriteria[1]) && Meets(password, AllCriteria[2]);
      assert Meets(password, AllCriteria[3]) && Meets(password, AllCriteria[4]);
    }
  }

  /** Only the empty password scores 0: any character belongs to some class. */
  lemma StrengthZeroIffEmpty(password: string)
    ensures Strength(password) == 0 <==> password == ""
  {
    ScoreIsCount(password);
    if password != "" {
      EveryCharHasAClass(password[0]);
      var k :| InClass(password[0], k);
      assert Contains(password, k);
    }
  }

  /** Typing more characters never lowers the score. */
  lemma StrengthMonotone(password: string, more: string)
    ensures Strength(password) <= Strength(password + more)
  {
    ScoreIsCount(password);
    ScoreIsCount(password + more);
    forall k | Contains(password, k) ensures Contains(password + more, k) {
      var i :| 0 <= i < |password| && InClass(password[i], k);
      assert (password + more)[i] == password[i];
    }
  }

  /** The two passwords used to describe the meter. */
  lemma StrengthExamples()
    ensures Strength("abc") == 1
    ensures Strength("Abcdef1!") == 5
  {
    ScoreIsCount("abc");
    ScoreIsCount("Abcdef1!");
    var strong := "Abcdef1!";
    assert InClass(strong[0], Upper) && InClass(strong[1], Lower);
    assert InClass(strong[6], Digit) && InClass(strong[7], Symbol);
  }

  /** What `getPasswordStrengthText` returns: a label and its colour class. */
  datatype StrengthLabel = StrengthLabel(text: string, color: string)

  /** `getPasswordStrengthText`: 0 and 1 share the weakest label; a value
      outside 0..5 gets an empty label. */
  function StrengthText(strength: int): (info: StrengthLabel)
    ensures info.text == "" <==> !(0 <= strength <= 5)
    ensures info.text == "Very Weak" <==> strength == 0 || strength == 1
    ensures info.text == "Weak" <==> strength == 2
    ensures info.text == "Fair" <==> strength == 3
    ensures info.text == "Good" <==> strength == 4
    ensures info.text == "Strong" <==> strength == 5
    ensures info.text == "" <==> info.color == ""
  {
    match strength
    case 0 => StrengthLabel("Very Weak", "text-red-400")
    case 1 => StrengthLabel("Very Weak", "text-red-400")
    case 2 => StrengthLabel("Weak", "text-orange-400")
    case 3 => StrengthLabel("Fair", "text-yellow-400")
    case 4 => StrengthLabel("Good", "text-blue-400")
    case 5 => StrengthLabel("Strong", "text-green-400")
    case _ => StrengthLabel("", "")
  }

  /** Every score the meter can produce has a visible label, and the labels
      of scores 1 to 5 are pairwise distinct. */
  lemma {:induction false} EveryScoreHasALabel(password: string)
    ensures StrengthText(Strength(password)).text != ""
    ensures forall a, b :: 1 <= a < b <= 5 ==> StrengthText(a).text != StrengthText(b).text
  {
    StrengthRange(password);
  }
}
