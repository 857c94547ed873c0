/**
 * The closed enumeration of T-shirt sizes and its text parser, which maps
 * text onto a member by upper-casing it and looking the result up among the
 * member names, and fails with an invalid-argument error otherwise.
 */
module TShirtSizes {
  import opened Wrappers
  import opened AsciiCase

  /** The six members, in declaration order. */
  datatype TShirtSize = XS | S | M | L | XL | XXL

  /** The names of the members, in declaration order. */
  const Names: seq<string> := ["XS", "S", "M", "L", "XL", "XXL"]

  /** The exceptions `fromString` can throw. */
  datatype ParseError =
    | NullPointer                      // `toUpperCase` called on a null text
    | IllegalArgument(message: string) // the upper-cased text names no member

  const InvalidSizePrefix: string := "Invalid T-Shirt size: "

  /** The member's name, as Java's `Enum.name()` gives it. */
  function Name(m: TShirtSize): (n: string)
    ensures n in Names
    ensures ToUpperCase(n) == n
  {
    var n := match m
      case XS => "XS"
      case S => "S"
      case M => "M"
      case L => "L"
      case XL => "XL"
      case XXL => "XXL";
    UpperCaseFixed(n);
    n
  }

  /** Java's `Enum.valueOf`: the member whose name is exactly `name`, if any. */
  function ValueOf(name: string): (r: Option<TShirtSize>)
    ensures r.Some? <==> name in Names
    ensures r.Some? ==> Name(r.value) == name
  {
    if name == "XS" then Some(XS)
    else if name == "S" then Some(S)
    else if name == "M" then Some(M)
    else if name == "L" then Some(L)
    else if name == "XL" then Some(XL)
    else if name == "XXL" then Some(XXL)
    else None
  }

  /**
   * `TShirtSize.fromString`: a null text fails before the lookup; otherwise the
   * text is upper-cased, nothing is trimmed, and the lookup either succeeds or
   * fails with a message that quotes the original text.
   */
  function FromString(size: Option<string>): (r: Result<TShirtSize, ParseError>)
    ensures size.None? ==> r == Failure(NullPointer)
    ensures size.Some? ==>
      (r.Success? <==> ToUpperCase(size.value) in Names)
    ensures size.Some? && r.Success? ==> Name(r.value) == ToUpperCase(size.value)
    ensures size.Some? && r.Failure? ==>
      r.error == IllegalArgument(InvalidSizePrefix + size.value)
  {
    match size
    case None => Failure(NullPointer)
    case Some(text) =>
      match ValueOf(ToUpperCase(text))
      case Some(m) => Success(m)
      case None => Failure(IllegalArgument(InvalidSizePrefix + text))
  }

  /** Distinct members have distinct names. */
  lemma NameInjective(m1: TShirtSize, m2: TShirtSize)
    requires Name(m1) == Name(m2)
    ensures m1 == m2
  {
  }

  /** Every name in `Names` belongs to exactly one member: the accepted set is exactly the six. */
  lemma NamesAreExactlyTheMembers(n: string)
    requires n in Names
    ensures exists m :: Name(m) == n
    ensures forall m1, m2 :: Name(m1) == n && Name(m2) == n ==> m1 == m2
  {
    var m := ValueOf(n).value;
    assert Name(m) == n;
    forall m1, m2 | Name(m1) == n && Name(m2) == n ensures m1 == m2 {
      NameInjective(m1, m2);
    }
  }

  /** Parsing a member's own name gives that member. */
  lemma FromStringName(m: TShirtSize)
    ensures FromString(Some(Name(m))) == Success(m)
  {
  }

  /** Parsing a member's name written in lower case gives that member. */
  lemma FromStringLowerName(m: TShirtSize)
    ensures FromString(Some(ToLowerCase(Name(m)))) == Success(m)
  {
  }

  /** Parsing depends on the text only through its upper-case form. */
  lemma FromStringIgnoresCase(s: string, t: string)
    requires ToUpperCase(s) == ToUpperCase(t)
    ensures FromString(Some(s)).Success? == FromString(Some(t)).Success?
    ensures FromString(Some(s)).Success? ==> FromString(Some(s)) == FromString(Some(t))
  {
  }

  /** Re-parsing the name of a successful result gives the same result. */
  lemma FromStringIdempotent(size: string)
    requires FromString(Some(size)).Success?
    ensures FromString(Some(Name(FromString(Some(size)).value))) == FromString(Some(size))
  {
  }

  /** "xl" parses to XL. */
  lemma FromStringLowerCaseExample()
    ensures FromString(Some("xl")) == Success(XL)
  {
  }

  /** "XXXL" names no member and is rejected with its own text in the message. */
  lemma FromStringRejectsXXXL()
    ensures FromString(Some("XXXL")) == Failure(IllegalArgument("Invalid T-Shirt size: XXXL"))
  {
    UpperCaseFixed("XXXL");
    assert "XXXL" !in Names by { assert forall n <- Names :: |n| < 4; }
    assert InvalidSizePrefix + "XXXL" == "Invalid T-Shirt size: XXXL";
  }

  /** Nothing is trimmed: " xl" is rejected. */
  lemma FromStringRejectsLeadingBlank()
    ensures FromString(Some(" xl")) == Failure(IllegalArgument("Invalid T-Shirt size:  xl"))
  {
    var blank := ToUpperCase(" xl");
    assert blank[0] == ' ';
    assert blank !in Names by {
      assert forall n <- Names :: n == [] || n[0] != ' ';
    }
    assert InvalidSizePrefix + " xl" == "Invalid T-Shirt size:  xl";
  }

  /** A mixed-case text of a non-member, "sM", is rejected. */
  lemma FromStringRejectsSM()
    ensures FromString(Some("sM")).Failure?
  {
  }
}
