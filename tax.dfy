/** Tax: the four rate strategies and their selection by address. */
module Tax {
  import opened Wrappers
  import opened Text
  import opened Domain

  datatype TaxStrategy = DefaultTaxStrategy | CaliforniaTaxStrategy | NewYorkTaxStrategy | TexasTaxStrategy
  {
    /** `get_rate`. */
    function Rate(): real
    {
      match this
      case DefaultTaxStrategy => 0.08
      case CaliforniaTaxStrategy => 0.0725
      case NewYorkTaxStrategy => 0.04
      case TexasTaxStrategy => 0.0625
    }
  }

  lemma TaxRateTable()
    ensures DefaultTaxStrategy.Rate() == 0.08 && CaliforniaTaxStrategy.Rate() == 0.0725
    ensures NewYorkTaxStrategy.Rate() == 0.04 && TexasTaxStrategy.Rate() == 0.0625
    ensures forall s: TaxStrategy :: 0.0 < s.Rate() < 1.0
  {
  }

  /** `_get_strategy`: no address (None or empty) gives the default; otherwise
      the first of "CA", "NY", "TX" that occurs in the address decides, and
      an address with none of them gives the default. */
  function GetStrategy(address: Option<string>): (s: TaxStrategy)
    ensures (address.None? || address.value == "") ==> s == DefaultTaxStrategy
    ensures s == CaliforniaTaxStrategy <==> address.Some? && Contains(address.value, "CA")
    ensures s == NewYorkTaxStrategy <==>
              address.Some? && !Contains(address.value, "CA") && Contains(address.value, "NY")
    ensures s == TexasTaxStrategy <==>
              address.Some? && !Contains(address.value, "CA") && !Contains(address.value, "NY")
              && Contains(address.value, "TX")
  {
    if address.None? || address.value == "" then DefaultTaxStrategy
    else if Contains(address.value, "CA") then CaliforniaTaxStrategy
    else if Contains(address.value, "NY") then NewYorkTaxStrategy
    else if Contains(address.value, "TX") then TexasTaxStrategy
    else DefaultTaxStrategy
  }

  /** `calculate_tax`: the subtotal times the rate selected by the
      customer's address. */
  function CalculateTax(subtotal: real, customer: Customer): (tax: real)
    ensures subtotal >= 0.0 ==> 0.0 <= tax < subtotal || (subtotal == 0.0 && tax == 0.0)
  {
    TaxRateTable();
    subtotal * GetStrategy(Some(customer.address)).Rate()
  }

  /** A string contains each of its suffixes. */
  lemma {:induction false} ContainsSuffix(prefix: string, suffix: string)
    ensures Contains(prefix + suffix, suffix)
    decreases |prefix|
  {
    if prefix == [] {
      assert prefix + suffix == suffix;
    } else {
      ContainsSuffix(prefix[1..], suffix);
      assert (prefix + suffix)[1..] == prefix[1..] + suffix;
    }
  }

  /** An address ending in ", CA", as the sample customers' addresses do, is
      taxed at the California rate whatever precedes it. */
  lemma CaliforniaAddress(prefix: string)
    ensures GetStrategy(Some(prefix + ", CA")) == CaliforniaTaxStrategy
  {
    ContainsSuffix(prefix + ", ", "CA");
    assert prefix + ", " + "CA" == prefix + ", CA";
  }
}
