/** The closed set of membership tiers: the tier enum and the four
    membership strategy objects, each a fixed name and discount rate. */
module Membership {

  datatype MembershipTier = Suspended | Bronze | Silver | Gold
  {
    /** `get_name`: the enum's string value. */
    function Name(): string
    {
      match this
      case Suspended => "suspended"
      case Bronze => "bronze"
      case Silver => "silver"
      case Gold => "gold"
    }

    /** `get_discount`: the tier's fixed discount rate. */
    function Discount(): real
    {
      match this
      case Suspended => 0.0
      case Bronze => 0.03
      case Silver => 0.07
      case Gold => 0.15
    }

    /** Position in the upgrade order Suspended < Bronze < Silver < Gold. */
    function Rank(): nat
    {
      match this
      case Suspended => 0
      case Bronze => 1
      case Silver => 2
      case Gold => 3
    }
  }

  /** The tier table: each tier's name and rate. */
  lemma TierTable()
    ensures Suspended.Name() == "suspended" && Suspended.Discount() == 0.0
    ensures Bronze.Name() == "bronze" && Bronze.Discount() == 0.03
    ensures Silver.Name() == "silver" && Silver.Discount() == 0.07
    ensures Gold.Name() == "gold" && Gold.Discount() == 0.15
  {
  }

  /** Every rate is a proper fraction, and rates grow with the tier. */
  lemma DiscountIsRate(t: MembershipTier, u: MembershipTier)
    ensures 0.0 <= t.Discount() < 1.0
    ensures t.Rank() <= u.Rank() ==> t.Discount() <= u.Discount()
  {
  }

  /** A tier is identified by its name, so comparing names (as the source
      does) is comparing tiers. */
  lemma NameIdentifiesTier(t: MembershipTier, u: MembershipTier)
    requires t.Name() == u.Name()
    ensures t == u
  {
  }
}
