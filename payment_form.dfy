/**
 * The consultation payment form: what each plan charges, the saving it
 * advertises, and who may start a payment.
 */
module PaymentForm {
  import opened Wrappers

  datatype Plan = OneTime | Monthly | Yearly
  datatype PaymentMethod = Stripe | Upi | Wallet

  /** The plan name posted to the server and written into the note. */
  function PlanName(plan: Plan): (r: string)
    ensures r in ["one-time", "monthly", "yearly"]
  {
    match plan
    case OneTime => "one-time"
    case Monthly => "monthly"
    case Yearly => "yearly"
  }

  /** The consultations a plan pays for at the single-consultation fee. */
  function Sessions(plan: Plan): nat {
    match plan
    case OneTime => 1
    case Monthly => 4
    case Yearly => 40
  }

  /** `calculateAmount`: the fee once, four times a month, or forty times a year. */
  function CalculateAmount(plan: Plan, fee: int): (r: int)
    ensures r == Sessions(plan) * fee
  {
    match plan
    case Monthly => fee * 4
    case Yearly => fee * 40
    case OneTime => fee
  }

  /** `getDiscountPercentage`: 16 for the yearly plan and nothing otherwise. */
  function DiscountPercentage(plan: Plan): (r: int)
    ensures r > 0 <==> plan == Yearly
    ensures 0 <= r < 100
  {
    match plan
    case Monthly => 0
    case Yearly => 16
    case OneTime => 0
  }

  /** The price struck through beside the total: shown only with a discount, 48 fees for the yearly plan. */
  function StruckPrice(plan: Plan, fee: int): (r: Option<int>)
    ensures r.Some? <==> DiscountPercentage(plan) > 0
    ensures r.Some? ==> r.value == 12 * CalculateAmount(Monthly, fee)
  {
    if DiscountPercentage(plan) > 0 then Some(if plan == Yearly then fee * 48 else CalculateAmount(plan, fee))
    else None
  }

  /**
   * The "Save 16%" badge is the real saving rounded down: a year at 40 fees
   * against the list price of 48 saves one sixth, 16.67%.
   */
  lemma AdvertisedSaving(fee: int)
    requires fee > 0
    ensures var list := StruckPrice(Yearly, fee).value;
            var saving := list - CalculateAmount(Yearly, fee);
            DiscountPercentage(Yearly) * list <= 100 * saving < (DiscountPercentage(Yearly) + 1) * list
  {
  }

  /** The request `handlePaymentInit` posts. */
  datatype Intent = Intent(amount: int, plan: string, doctorId: string, paymentMethod: PaymentMethod, notes: string)

  /**
   * The payment a user can start: patients (user type "user") get the form
   * and post the plan's amount; anyone else gets the restricted view.
   */
  function PaymentInit(userType: string, plan: Plan, paymentMethod: PaymentMethod,
                       doctorId: string, doctorName: string, fee: int): (r: Option<Intent>)
    ensures r.Some? <==> userType == "user"
    ensures r.Some? ==> r.value.amount == CalculateAmount(plan, fee) && r.value.plan == PlanName(plan) &&
                        r.value.doctorId == doctorId && r.value.paymentMethod == paymentMethod
  {
    if userType != "user" then None
    else Some(Intent(CalculateAmount(plan, fee), PlanName(plan), doctorId, paymentMethod,
                     PlanName(plan) + " payment for consultation with Dr. " + doctorName))
  }
}
