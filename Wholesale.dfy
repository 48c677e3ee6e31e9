/** The wholesale page's application form and the request `handleSubmit` builds from it. */
module Wholesale {
  import opened Wrappers
  import opened Js

  /** The form's values; `services` is None when no box was ever ticked. */
  datatype ApplicationForm = ApplicationForm(name: string, company: string, phone: string, product: string,
                                             quantity: string, services: Option<seq<string>>)

  datatype ApplicationData = ApplicationData(name: string, company: string, phone: string, lockId: int,
                                             lockAmount: int, customLogo: bool, helpSetup: bool)

  /** `parseInt(quantity, 10) || 1`: NaN and 0 both become 1; a negative number stays. */
  function LockAmount(quantity: string): (n: int)
    ensures n != 0
    ensures ParseInt(quantity).Some? && ParseInt(quantity).value != 0 ==> n == ParseInt(quantity).value
    ensures ParseInt(quantity).None? || ParseInt(quantity) == Some(0) ==> n == 1
  {
    match ParseInt(quantity)
    case None => 1
    case Some(v) => if v == 0 then 1 else v
  }

  /** `services?.includes(option) || false`. */
  function Chosen(services: Option<seq<string>>, option: string): (b: bool)
    ensures b <==> services.Some? && option in services.value
  {
    services.Some? && option in services.value
  }

  /**
   * `handleSubmit`'s request: name, company and phone copied as they are, lock 1,
   * the parsed amount, and the two service options. The `product` field is not sent.
   */
  function HandleSubmit(f: ApplicationForm): (d: ApplicationData)
    ensures d.name == f.name && d.company == f.company && d.phone == f.phone
    ensures d.lockId == 1
    ensures d.lockAmount == LockAmount(f.quantity) && d.lockAmount != 0
    ensures d.customLogo <==> f.services.Some? && "logo" in f.services.value
    ensures d.helpSetup <==> f.services.Some? && "help" in f.services.value
    ensures f.services.None? ==> !d.customLogo && !d.helpSetup
  {
    ApplicationData(f.name, f.company, f.phone, 1, LockAmount(f.quantity), Chosen(f.services, "logo"),
                    Chosen(f.services, "help"))
  }

  /** What is typed in the `product` field never reaches the request. */
  lemma ProductNotSent(f: ApplicationForm, other: string)
    ensures HandleSubmit(f) == HandleSubmit(f.(product := other))
  {
  }

  /**
   * Any non-zero amount typed as a numeral, possibly followed by text that does
   * not start with a digit ("12 pcs"), is sent as that amount.
   */
  lemma LockAmountReadsNumeral(n: int, rest: string)
    requires n != 0
    requires |rest| > 0 ==> !IsDigit(rest[0])
    ensures LockAmount(Show(n) + rest) == n
  {
    ParseIntShow(n, rest);
  }

  /** "0", followed by text that does not start with a digit, asks for one lock. */
  lemma LockAmountDefaultsToOne(rest: string)
    requires |rest| > 0 ==> !IsDigit(rest[0])
    ensures LockAmount(Show(0) + rest) == 1
  {
    ParseIntShow(0, rest);
  }

  /** Text that starts with neither a digit, a sign nor white space asks for one lock. */
  lemma LockAmountOfNonNumeral(s: string)
    requires |s| > 0 && !IsDigit(s[0]) && s[0] != '-' && s[0] != '+' && !IsWhite(s[0])
    ensures LockAmount(s) == 1
  {
    assert TrimStart(s) == s;
    assert DigitRun(s) == 0;
    assert ParseDigits(s).None?;
    assert ParseInt(s).None?;
  }
}
