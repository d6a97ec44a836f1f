/** The password complexity score: how many of four character categories
    (lowercase, uppercase, digit, non-word symbol) occur in a password.
    The three copies in the repository have the same body; this module is
    that body, stated once. */
module Strength {
  import opened Text

  /** `re.search('[a-z]', password) is not None` */
  predicate HasLower(s: string) { exists i | 0 <= i < |s| :: IsLower(s[i]) }

  /** `re.search('[A-Z]', password) is not None` */
  predicate HasUpper(s: string) { exists i | 0 <= i < |s| :: IsUpper(s[i]) }

  /** `re.search(r'\d', password) is not None` */
  predicate HasDigit(s: string) { exists i | 0 <= i < |s| :: IsDigit(s[i]) }

  /** `re.search(r'\W', password) is not None`: some character that is not a
      letter, a digit or an underscore. */
  predicate HasSymbol(s: string) { exists i | 0 <= i < |s| :: !IsWordChar(s[i]) }

  /** Python's `int(b)` for a bool, as `sum` counts it. */
  function Count(b: bool): nat { if b then 1 else 0 }

  /** The score: the sum of the four presence tests. */
  function Complexity(password: string): (score: nat)
    ensures score <= 4
    ensures score == 4 <==> HasLower(password) && HasUpper(password) && HasDigit(password) && HasSymbol(password)
    ensures score == 0 <==> !HasLower(password) && !HasUpper(password) && !HasDigit(password) && !HasSymbol(password)
  {
    Count(HasLower(password)) + Count(HasUpper(password)) + Count(HasDigit(password)) + Count(HasSymbol(password))
  }

  /** The signature of the scorer in tkl_dialog/utils.py, whose `cracklib`
      flag is accepted and never read. */
  function PasswordComplexity(password: string, cracklib: bool): (score: nat)
    ensures score == Complexity(password)
  {
    Complexity(password)
  }

  // An independent reading of the score: the number of distinct categories
  // that the characters of the password fall into.

  datatype Category = Lower | Upper | Digit | Symbol

  /** The category of one character; the underscore and the other word
      characters that are not letters or digits belong to none. */
  function CategoryOf(c: char): (cat: set<Category>)
    ensures |cat| <= 1
  {
    if IsLower(c) then {Lower}
    else if IsUpper(c) then {Upper}
    else if IsDigit(c) then {Digit}
    else if !IsWordChar(c) then {Symbol}
    else {}
  }

  /** Every category that some character of `s` falls into. */
  function Categories(s: string): set<Category> {
    if s == [] then {} else CategoryOf(s[0]) + Categories(s[1..])
  }

  /** Each presence test looks at the first character and then at the rest. */
  lemma PresenceSplits(s: string)
    requires s != []
    ensures HasLower(s) <==> IsLower(s[0]) || HasLower(s[1..])
    ensures HasUpper(s) <==> IsUpper(s[0]) || HasUpper(s[1..])
    ensures HasDigit(s) <==> IsDigit(s[0]) || HasDigit(s[1..])
    ensures HasSymbol(s) <==> !IsWordChar(s[0]) || HasSymbol(s[1..])
  {
    assert forall i | 1 <= i < |s| :: s[i] == s[1..][i - 1];
    assert forall i | 0 <= i < |s| - 1 :: s[1..][i] == s[i + 1];
  }

  lemma {:induction false} CategoriesMembers(s: string)
    ensures Lower in Categories(s) <==> HasLower(s)
    ensures Upper in Categories(s) <==> HasUpper(s)
    ensures Digit in Categories(s) <==> HasDigit(s)
    ensures Symbol in Categories(s) <==> HasSymbol(s)
  {
    if s != [] {
      CategoriesMembers(s[1..]);
      PresenceSplits(s);
    }
  }

  /** The score is the number of distinct categories present. */
  lemma ComplexityCountsCategories(password: string)
    ensures Complexity(password) == |Categories(password)|
  {
    CategoriesMembers(password);
    CountMembers(Categories(password));
  }

  /** A set of categories holds one element per category in it. */
  lemma CountMembers(cs: set<Category>)
    ensures |cs| == Count(Lower in cs) + Count(Upper in cs) + Count(Digit in cs) + Count(Symbol in cs)
  {
    var c1 := cs - {Lower};
    var c2 := c1 - {Upper};
    var c3 := c2 - {Digit};
    var c4 := c3 - {Symbol};
    DropOne(cs, Lower);
    DropOne(c1, Upper);
    DropOne(c2, Digit);
    DropOne(c3, Symbol);
    forall c | c in c4 ensures false {
      match c
      case Lower =>
      case Upper =>
      case Digit =>
      case Symbol =>
    }
    assert c4 == {};
  }

  /** Taking one category out of a set shrinks it by one exactly when the
      category was in it. */
  lemma DropOne(cs: set<Category>, c: Category)
    ensures |cs| == |cs - {c}| + Count(c in cs)
  {
    if c in cs {
      assert cs == (cs - {c}) + {c};
    } else {
      assert cs - {c} == cs;
    }
  }

  /** The score depends only on which characters occur, not on their order
      or how often they occur. */
  lemma {:induction false} ComplexityDependsOnCharacterSet(s: string, t: string)
    requires forall c :: c in s <==> c in t
    ensures Complexity(s) == Complexity(t)
  {
    CategoriesMembers(s);
    CategoriesMembers(t);
    SameCharactersSameCategories(s, t);
  }

  lemma SameCharactersSameCategories(s: string, t: string)
    requires forall c :: c in s <==> c in t
    ensures HasLower(s) == HasLower(t) && HasUpper(s) == HasUpper(t)
    ensures HasDigit(s) == HasDigit(t) && HasSymbol(s) == HasSymbol(t)
  {
    forall i | 0 <= i < |s| ensures exists j | 0 <= j < |t| :: t[j] == s[i] {
      assert s[i] in t;
    }
    forall j | 0 <= j < |t| ensures exists i | 0 <= i < |s| :: s[i] == t[j] {
      assert t[j] in s;
    }
  }

  /** A reordering of the password has the same score. */
  lemma ComplexityOfPermutation(s: string, t: string)
    requires multiset(s) == multiset(t)
    ensures Complexity(s) == Complexity(t)
  {
    forall c ensures c in s <==> c in t {
      assert c in s <==> c in multiset(s);
      assert c in t <==> c in multiset(t);
    }
    ComplexityDependsOnCharacterSet(s, t);
  }

  /** Appending characters never lowers the score. */
  lemma {:induction false} ComplexityMonotone(s: string, t: string)
    ensures Complexity(s) <= Complexity(s + t)
    ensures Complexity(t) <= Complexity(s + t)
  {
    forall i | 0 <= i < |s| ensures (s + t)[i] == s[i] { }
    forall i | 0 <= i < |t| ensures (s + t)[|s| + i] == t[i] { }
  }

  /** The underscore is a word character: it is no symbol and adds nothing
      to any password. */
  lemma UnderscoreIsNoSymbol(s: string)
    ensures Complexity("_") == 0
    ensures Complexity(s + "_") == Complexity(s)
  {
    var t := s + "_";
    assert forall i | 0 <= i < |s| :: t[i] == s[i];
    assert t[|s|] == '_';
    assert forall i | 0 <= i < |t| :: i < |s| || t[i] == '_';
  }

  /** The two ends of the scale. */
  lemma ComplexityExamples()
    ensures Complexity("") == 0
    ensures Complexity("aA1!") == 4
    ensures Complexity("abcABC123!") == 4
    ensures Complexity("password") == 1
  {
    var a := "aA1!";
    assert IsLower(a[0]) && IsUpper(a[1]) && IsDigit(a[2]) && !IsWordChar(a[3]);
    var b := "abcABC123!";
    assert IsLower(b[0]) && IsUpper(b[3]) && IsDigit(b[6]) && !IsWordChar(b[9]);
    var p := "password";
    assert IsLower(p[0]);
    assert forall i | 0 <= i < |p| :: IsLower(p[i]);
  }
}
