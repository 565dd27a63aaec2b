/**
 * The closed string enumerations of the domain.  Each Python `str` Enum becomes a
 * datatype whose `Wire()` is the member's value (what goes into JSON and query
 * strings) and whose `FromWire` is the value lookup `E(w)`.  Constructors are the
 * Python member names in PascalCase.
 */
module Enums {

  import opened Wrappers

  /**
   * `all` lists every value of T exactly once, `decode` inverts `wire` on all of
   * T and recognises no other string.
   */
  ghost predicate IsEncoding<T(!new)>(all: seq<T>, wire: T -> string, decode: string -> Option<T>) {
    && (forall m :: m in all)
    && (forall i, j :: 0 <= i < j < |all| ==> all[i] != all[j])
    && (forall m :: decode(wire(m)) == Some(m))
    && (forall w :: decode(w).Some? ==> wire(decode(w).value) == w)
  }

  /** An encoding never maps two members to one string. */
  lemma EncodingIsInjective<T(!new)>(all: seq<T>, wire: T -> string, decode: string -> Option<T>, a: T, b: T)
    requires IsEncoding(all, wire, decode)
    requires wire(a) == wire(b)
    ensures a == b
  {
    assert decode(wire(a)) == Some(a);
  }

  predicate IsLowerSnake(w: string) {
    |w| > 0 && forall k :: 0 <= k < |w| ==> 'a' <= w[k] <= 'z' || w[k] == '_'
  }

  /** External service booking status for travel and merchant integrations. */
  datatype BookingStatus = Confirmed | Cancelled | Completed | Refunded {
    function Wire(): string {
      match this
      case Confirmed => "CONFIRMED"
      case Cancelled => "CANCELLED"
      case Completed => "COMPLETED"
      case Refunded => "REFUNDED"
    }

    /** Position in declaration order. */
    function Ordinal(): nat {
      match this
      case Confirmed => 0
      case Cancelled => 1
      case Completed => 2
      case Refunded => 3
    }

    /** Value lookup, as `BookingStatus(w)` does in Python. */
    static function FromWire(w: string): Option<BookingStatus> {
      match w
      case "CONFIRMED" => Some(BookingStatus.Confirmed)
      case "CANCELLED" => Some(BookingStatus.Cancelled)
      case "COMPLETED" => Some(BookingStatus.Completed)
      case "REFUNDED" => Some(BookingStatus.Refunded)
      case _ => None
    }
  }

  const BookingStatuses: seq<BookingStatus> := [
    BookingStatus.Confirmed, BookingStatus.Cancelled, BookingStatus.Completed,
    BookingStatus.Refunded
  ]

  const BookingStatusWires: set<string> := {
    "CONFIRMED", "CANCELLED", "COMPLETED", "REFUNDED"
  }

  /** `BookingStatuses` lists every BookingStatus once. */
  lemma BookingStatusListing()
    ensures forall m: BookingStatus :: m in BookingStatuses
    ensures forall i, j :: 0 <= i < j < |BookingStatuses| ==> BookingStatuses[i] != BookingStatuses[j]
  {
    forall m: BookingStatus ensures m in BookingStatuses {
      assert BookingStatuses[m.Ordinal()] == m;
    }
    assert forall i :: 0 <= i < |BookingStatuses| ==> BookingStatuses[i].Ordinal() == i;
  }

  /** Decoding the wire string of a member gives that member back. */
  lemma BookingStatusRoundTrip()
    ensures forall m: BookingStatus :: BookingStatus.FromWire(m.Wire()) == Some(m)
  {
  }

  /** Exactly the declared strings decode, each to the member that encodes to it. */
  lemma BookingStatusDecoding()
    ensures forall w :: BookingStatus.FromWire(w).Some? ==> BookingStatus.FromWire(w).value.Wire() == w
    ensures forall w :: BookingStatus.FromWire(w).Some? <==> w in BookingStatusWires
  {
  }

  lemma BookingStatusEncoding()
    ensures IsEncoding(BookingStatuses, (m: BookingStatus) => m.Wire(), BookingStatus.FromWire)
    ensures |BookingStatuses| == 4
    ensures forall w :: BookingStatus.FromWire(w).Some? <==> w in BookingStatusWires
  {
    BookingStatusListing();
    BookingStatusRoundTrip();
    BookingStatusDecoding();
  }

  /** Credit card product tiers. */
  datatype CreditCardProduct = Basic | Silver | Gold | Platinum {
    function Wire(): string {
      match this
      case Basic => "BASIC"
      case Silver => "SILVER"
      case Gold => "GOLD"
      case Platinum => "PLATINUM"
    }

    /** Position in declaration order. */
    function Ordinal(): nat {
      match this
      case Basic => 0
      case Silver => 1
      case Gold => 2
      case Platinum => 3
    }

    /** Value lookup, as `CreditCardProduct(w)` does in Python. */
    static function FromWire(w: string): Option<CreditCardProduct> {
      match w
      case "BASIC" => Some(CreditCardProduct.Basic)
      case "SILVER" => Some(CreditCardProduct.Silver)
      case "GOLD" => Some(CreditCardProduct.Gold)
      case "PLATINUM" => Some(CreditCardProduct.Platinum)
      case _ => None
    }
  }

  const CreditCardProducts: seq<CreditCardProduct> := [
    CreditCardProduct.Basic, CreditCardProduct.Silver, CreditCardProduct.Gold,
    CreditCardProduct.Platinum
  ]

  const CreditCardProductWires: set<string> := {
    "BASIC", "SILVER", "GOLD", "PLATINUM"
  }

  /** `CreditCardProducts` lists every CreditCardProduct once. */
  lemma CreditCardProductListing()
    ensures forall m: CreditCardProduct :: m in CreditCardProducts
    ensures forall i, j :: 0 <= i < j < |CreditCardProducts| ==> CreditCardProducts[i] != CreditCardProducts[j]
  {
    forall m: CreditCardProduct ensures m in CreditCardProducts {
      assert CreditCardProducts[m.Ordinal()] == m;
    }
    assert forall i :: 0 <= i < |CreditCardProducts| ==> CreditCardProducts[i].Ordinal() == i;
  }

  /** Decoding the wire string of a member gives that member back. */
  lemma CreditCardProductRoundTrip()
    ensures forall m: CreditCardProduct :: CreditCardProduct.FromWire(m.Wire()) == Some(m)
  {
  }

  /** Exactly the declared strings decode, each to the member that encodes to it. */
  lemma CreditCardProductDecoding()
    ensures forall w :: CreditCardProduct.FromWire(w).Some? ==> CreditCardProduct.FromWire(w).value.Wire() == w
    ensures forall w :: CreditCardProduct.FromWire(w).Some? <==> w in CreditCardProductWires
  {
  }

  lemma CreditCardProductEncoding()
    ensures IsEncoding(CreditCardProducts, (m: CreditCardProduct) => m.Wire(), CreditCardProduct.FromWire)
    ensures |CreditCardProducts| == 4
    ensures forall w :: CreditCardProduct.FromWire(w).Some? <==> w in CreditCardProductWires
  {
    CreditCardProductListing();
    CreditCardProductRoundTrip();
    CreditCardProductDecoding();
  }

  /** Merchant business categories. */
  datatype MerchantCategory =
    | Restaurant
    | RetailStore
    | GasStation
    | Airline
    | Hotel
    | ECommerce
    | GroceryStore
    | Pharmacy
    | EntertainmentVenue
    | HealthcareProvider
    | TelecomProvider
    | UtilityCompany
    | InsuranceCompany
    | EducationalInstitution
    | AutomotiveService
    | HomeImprovement
    | FashionRetailer
    | ElectronicsStore
    | SubscriptionService
    | FinancialService
    | FitnessCenter {
    function Wire(): string {
      match this
      case Restaurant => "RESTAURANT"
      case RetailStore => "RETAIL_STORE"
      case GasStation => "GAS_STATION"
      case Airline => "AIRLINE"
      case Hotel => "HOTEL"
      case ECommerce => "E_COMMERCE"
      case GroceryStore => "GROCERY_STORE"
      case Pharmacy => "PHARMACY"
      case EntertainmentVenue => "ENTERTAINMENT_VENUE"
      case HealthcareProvider => "HEALTHCARE_PROVIDER"
      case TelecomProvider => "TELECOM_PROVIDER"
      case UtilityCompany => "UTILITY_COMPANY"
      case InsuranceCompany => "INSURANCE_COMPANY"
      case EducationalInstitution => "EDUCATIONAL_INSTITUTION"
      case AutomotiveService => "AUTOMOTIVE_SERVICE"
      case HomeImprovement => "HOME_IMPROVEMENT"
      case FashionRetailer => "FASHION_RETAILER"
      case ElectronicsStore => "ELECTRONICS_STORE"
      case SubscriptionService => "SUBSCRIPTION_SERVICE"
      case FinancialService => "FINANCIAL_SERVICE"
      case FitnessCenter => "FITNESS_CENTER"
    }

    /** Position in declaration order. */
    function Ordinal(): nat {
      match this
      case Restaurant => 0
      case RetailStore => 1
      case GasStation => 2
      case Airline => 3
      case Hotel => 4
      case ECommerce => 5
      case GroceryStore => 6
      case Pharmacy => 7
      case EntertainmentVenue => 8
      case HealthcareProvider => 9
      case TelecomProvider => 10
      case UtilityCompany => 11
      case InsuranceCompany => 12
      case EducationalInstitution => 13
      case AutomotiveService => 14
      case HomeImprovement => 15
      case FashionRetailer => 16
      case ElectronicsStore => 17
      case SubscriptionService => 18
      case FinancialService => 19
      case FitnessCenter => 20
    }

    /** Value lookup, as `MerchantCategory(w)` does in Python. */
    static function FromWire(w: string): Option<MerchantCategory> {
      match w
      case "RESTAURANT" => Some(MerchantCategory.Restaurant)
      case "RETAIL_STORE" => Some(MerchantCategory.RetailStore)
      case "GAS_STATION" => Some(MerchantCategory.GasStation)
      case "AIRLINE" => Some(MerchantCategory.Airline)
      case "HOTEL" => Some(MerchantCategory.Hotel)
      case "E_COMMERCE" => Some(MerchantCategory.ECommerce)
      case "GROCERY_STORE" => Some(MerchantCategory.GroceryStore)
      case "PHARMACY" => Some(MerchantCategory.Pharmacy)
      case "ENTERTAINMENT_VENUE" => Some(MerchantCategory.EntertainmentVenue)
      case "HEALTHCARE_PROVIDER" => Some(MerchantCategory.HealthcareProvider)
      case "TELECOM_PROVIDER" => Some(MerchantCategory.TelecomProvider)
      case "UTILITY_COMPANY" => Some(MerchantCategory.UtilityCompany)
      case "INSURANCE_COMPANY" => Some(MerchantCategory.InsuranceCompany)
      case "EDUCATIONAL_INSTITUTION" => Some(MerchantCategory.EducationalInstitution)
      case "AUTOMOTIVE_SERVICE" => Some(MerchantCategory.AutomotiveService)
      case "HOME_IMPROVEMENT" => Some(MerchantCategory.HomeImprovement)
      case "FASHION_RETAILER" => Some(MerchantCategory.FashionRetailer)
      case "ELECTRONICS_STORE" => Some(MerchantCategory.ElectronicsStore)
      case "SUBSCRIPTION_SERVICE" => Some(MerchantCategory.SubscriptionService)
      case "FINANCIAL_SERVICE" => Some(MerchantCategory.FinancialService)
      case "FITNESS_CENTER" => Some(MerchantCategory.FitnessCenter)
      case _ => None
    }
  }

  const MerchantCategories: seq<MerchantCategory> := [
    MerchantCategory.Restaurant, MerchantCategory.RetailStore,
    MerchantCategory.GasStation, MerchantCategory.Airline, MerchantCategory.Hotel,
    MerchantCategory.ECommerce, MerchantCategory.GroceryStore, MerchantCategory.Pharmacy,
    MerchantCategory.EntertainmentVenue, MerchantCategory.HealthcareProvider,
    MerchantCategory.TelecomProvider, MerchantCategory.UtilityCompany,
    MerchantCategory.InsuranceCompany, MerchantCategory.EducationalInstitution,
    MerchantCategory.AutomotiveService, MerchantCategory.HomeImprovement,
    MerchantCategory.FashionRetailer, MerchantCategory.ElectronicsStore,
    MerchantCategory.SubscriptionService, MerchantCategory.FinancialService,
    MerchantCategory.FitnessCenter
  ]

  const MerchantCategoryWires: set<string> := {
    "RESTAURANT", "RETAIL_STORE", "GAS_STATION", "AIRLINE", "HOTEL", "E_COMMERCE",
    "GROCERY_STORE", "PHARMACY", "ENTERTAINMENT_VENUE", "HEALTHCARE_PROVIDER",
    "TELECOM_PROVIDER", "UTILITY_COMPANY", "INSURANCE_COMPANY",
    "EDUCATIONAL_INSTITUTION", "AUTOMOTIVE_SERVICE", "HOME_IMPROVEMENT",
    "FASHION_RETAILER", "ELECTRONICS_STORE", "SUBSCRIPTION_SERVICE", "FINANCIAL_SERVICE",
    "FITNESS_CENTER"
  }

  /** `MerchantCategories` lists every MerchantCategory once. */
  lemma MerchantCategoryListing()
    ensures forall m: MerchantCategory :: m in MerchantCategories
    ensures forall i, j :: 0 <= i < j < |MerchantCategories| ==> MerchantCategories[i] != MerchantCategories[j]
  {
    forall m: MerchantCategory ensures m in MerchantCategories {
      assert MerchantCategories[m.Ordinal()] == m;
    }
    assert forall i :: 0 <= i < |MerchantCategories| ==> MerchantCategories[i].Ordinal() == i;
  }

  /** Decoding the wire string of a member gives that member back. */
  lemma MerchantCategoryRoundTrip()
    ensures forall m: MerchantCategory :: MerchantCategory.FromWire(m.Wire()) == Some(m)
  {
    forall m: MerchantCategory ensures MerchantCategory.FromWire(m.Wire()) == Some(m) {
      match m {
        case Restaurant =>
        case RetailStore =>
        case GasStation =>
        case Airline =>
        case Hotel =>
        case ECommerce =>
        case GroceryStore =>
        case Pharmacy =>
        case EntertainmentVenue =>
        case HealthcareProvider =>
        case TelecomProvider =>
        case UtilityCompany =>
        case InsuranceCompany =>
        case EducationalInstitution =>
        case AutomotiveService =>
        case HomeImprovement =>
        case FashionRetailer =>
        case ElectronicsStore =>
        case SubscriptionService =>
        case FinancialService =>
        case FitnessCenter =>
      }
    }
  }

  /** Exactly the declared strings decode, each to the member that encodes to it. */
  lemma MerchantCategoryDecoding()
    ensures forall w :: MerchantCategory.FromWire(w).Some? ==> MerchantCategory.FromWire(w).value.Wire() == w
    ensures forall w :: MerchantCategory.FromWire(w).Some? <==> w in MerchantCategoryWires
  {
  }

  lemma MerchantCategoryEncoding()
    ensures IsEncoding(MerchantCategories, (m: MerchantCategory) => m.Wire(), MerchantCategory.FromWire)
    ensures |MerchantCategories| == 21
    ensures forall w :: MerchantCategory.FromWire(w).Some? <==> w in MerchantCategoryWires
  {
    MerchantCategoryListing();
    MerchantCategoryRoundTrip();
    MerchantCategoryDecoding();
  }

  /** Offer categories. */
  datatype OfferCategory =
    | Travel
    | Merchant
    | Cashback
    | Dining
    | Fuel
    | Shopping
    | Grocery
    | Entertainment
    | HealthWellness
    | Telecommunications
    | Utilities
    | Insurance
    | Education
    | Automotive
    | HomeGarden
    | Fashion
    | Electronics
    | Subscription
    | Finance
    | SportsFitness {
    function Wire(): string {
      match this
      case Travel => "TRAVEL"
      case Merchant => "MERCHANT"
      case Cashback => "CASHBACK"
      case Dining => "DINING"
      case Fuel => "FUEL"
      case Shopping => "SHOPPING"
      case Grocery => "GROCERY"
      case Entertainment => "ENTERTAINMENT"
      case HealthWellness => "HEALTH_WELLNESS"
      case Telecommunications => "TELECOMMUNICATIONS"
      case Utilities => "UTILITIES"
      case Insurance => "INSURANCE"
      case Education => "EDUCATION"
      case Automotive => "AUTOMOTIVE"
      case HomeGarden => "HOME_GARDEN"
      case Fashion => "FASHION"
      case Electronics => "ELECTRONICS"
      case Subscription => "SUBSCRIPTION"
      case Finance => "FINANCE"
      case SportsFitness => "SPORTS_FITNESS"
    }

    /** Position in declaration order. */
    function Ordinal(): nat {
      match this
      case Travel => 0
      case Merchant => 1
      case Cashback => 2
      case Dining => 3
      case Fuel => 4
      case Shopping => 5
      case Grocery => 6
      case Entertainment => 7
      case HealthWellness => 8
      case Telecommunications => 9
      case Utilities => 10
      case Insurance => 11
      case Education => 12
      case Automotive => 13
      case HomeGarden => 14
      case Fashion => 15
      case Electronics => 16
      case Subscription => 17
      case Finance => 18
      case SportsFitness => 19
    }

    /** Value lookup, as `OfferCategory(w)` does in Python. */
    static function FromWire(w: string): Option<OfferCategory> {
      match w
      case "TRAVEL" => Some(OfferCategory.Travel)
      case "MERCHANT" => Some(OfferCategory.Merchant)
      case "CASHBACK" => Some(OfferCategory.Cashback)
      case "DINING" => Some(OfferCategory.Dining)
      case "FUEL" => Some(OfferCategory.Fuel)
      case "SHOPPING" => Some(OfferCategory.Shopping)
      case "GROCERY" => Some(OfferCategory.Grocery)
      case "ENTERTAINMENT" => Some(OfferCategory.Entertainment)
      case "HEALTH_WELLNESS" => Some(OfferCategory.HealthWellness)
      case "TELECOMMUNICATIONS" => Some(OfferCategory.Telecommunications)
      case "UTILITIES" => Some(OfferCategory.Utilities)
      case "INSURANCE" => Some(OfferCategory.Insurance)
      case "EDUCATION" => Some(OfferCategory.Education)
      case "AUTOMOTIVE" => Some(OfferCategory.Automotive)
      case "HOME_GARDEN" => Some(OfferCategory.HomeGarden)
      case "FASHION" => Some(OfferCategory.Fashion)
      case "ELECTRONICS" => Some(OfferCategory.Electronics)
      case "SUBSCRIPTION" => Some(OfferCategory.Subscription)
      case "FINANCE" => Some(OfferCategory.Finance)
      case "SPORTS_FITNESS" => Some(OfferCategory.SportsFitness)
      case _ => None
    }
  }

  const OfferCategories: seq<OfferCategory> := [
    OfferCategory.Travel, OfferCategory.Merchant, OfferCategory.Cashback,
    OfferCategory.Dining, OfferCategory.Fuel, OfferCategory.Shopping,
    OfferCategory.Grocery, OfferCategory.Entertainment, OfferCategory.HealthWellness,
    OfferCategory.Telecommunications, OfferCategory.Utilities, OfferCategory.Insurance,
    OfferCategory.Education, OfferCategory.Automotive, OfferCategory.HomeGarden,
    OfferCategory.Fashion, OfferCategory.Electronics, OfferCategory.Subscription,
    OfferCategory.Finance, OfferCategory.SportsFitness
  ]

  const OfferCategoryWires: set<string> := {
    "TRAVEL", "MERCHANT", "CASHBACK", "DINING", "FUEL", "SHOPPING", "GROCERY",
    "ENTERTAINMENT", "HEALTH_WELLNESS", "TELECOMMUNICATIONS", "UTILITIES", "INSURANCE",
    "EDUCATION", "AUTOMOTIVE", "HOME_GARDEN", "FASHION", "ELECTRONICS", "SUBSCRIPTION",
    "FINANCE", "SPORTS_FITNESS"
  }

  /** `OfferCategories` lists every OfferCategory once. */
  lemma OfferCategoryListing()
    ensures forall m: OfferCategory :: m in OfferCategories
    ensures forall i, j :: 0 <= i < j < |OfferCategories| ==> OfferCategories[i] != OfferCategories[j]
  {
    forall m: OfferCategory ensures m in OfferCategories {
      assert OfferCategories[m.Ordinal()] == m;
    }
    assert forall i :: 0 <= i < |OfferCategories| ==> OfferCategories[i].Ordinal() == i;
  }

  /** Decoding the wire string of a member gives that member back. */
  lemma OfferCategoryRoundTrip()
    ensures forall m: OfferCategory :: OfferCategory.FromWire(m.Wire()) == Some(m)
  {
    forall m: OfferCategory ensures OfferCategory.FromWire(m.Wire()) == Some(m) {
      match m {
        case Travel =>
        case Merchant =>
        case Cashback =>
        case Dining =>
        case Fuel =>
        case Shopping =>
        case Grocery =>
        case Entertainment =>
        case HealthWellness =>
        case Telecommunications =>
        case Utilities =>
        case Insurance =>
        case Education =>
        case Automotive =>
        case HomeGarden =>
        case Fashion =>
        case Electronics =>
        case Subscription =>
        case Finance =>
        case SportsFitness =>
      }
    }
  }

  /** Exactly the declared strings decode, each to the member that encodes to it. */
  lemma OfferCategoryDecoding()
    ensures forall w :: OfferCategory.FromWire(w).Some? ==> OfferCategory.FromWire(w).value.Wire() == w
    ensures forall w :: OfferCategory.FromWire(w).Some? <==> w in OfferCategoryWires
  {
  }

  lemma OfferCategoryEncoding()
    ensures IsEncoding(OfferCategories, (m: OfferCategory) => m.Wire(), OfferCategory.FromWire)
    ensures |OfferCategories| == 20
    ensures forall w :: OfferCategory.FromWire(w).Some? <==> w in OfferCategoryWires
  {
    OfferCategoryListing();
    OfferCategoryRoundTrip();
    OfferCategoryDecoding();
  }

  /** Payment transaction status. */
  datatype PaymentStatus = Pending | Completed | Failed | Refunded {
    function Wire(): string {
      match this
      case Pending => "PENDING"
      case Completed => "COMPLETED"
      case Failed => "FAILED"
      case Refunded => "REFUNDED"
    }

    /** Position in declaration order. */
    function Ordinal(): nat {
      match this
      case Pending => 0
      case Completed => 1
      case Failed => 2
      case Refunded => 3
    }

    /** Value lookup, as `PaymentStatus(w)` does in Python. */
    static function FromWire(w: string): Option<PaymentStatus> {
      match w
      case "PENDING" => Some(PaymentStatus.Pending)
      case "COMPLETED" => Some(PaymentStatus.Completed)
      case "FAILED" => Some(PaymentStatus.Failed)
      case "REFUNDED" => Some(PaymentStatus.Refunded)
      case _ => None
    }
  }

  const PaymentStatuses: seq<PaymentStatus> := [
    PaymentStatus.Pending, PaymentStatus.Completed, PaymentStatus.Failed,
    PaymentStatus.Refunded
  ]

  const PaymentStatusWires: set<string> := {
    "PENDING", "COMPLETED", "FAILED", "REFUNDED"
  }

  /** `PaymentStatuses` lists every PaymentStatus once. */
  lemma PaymentStatusListing()
    ensures forall m: PaymentStatus :: m in PaymentStatuses
    ensures forall i, j :: 0 <= i < j < |PaymentStatuses| ==> PaymentStatuses[i] != PaymentStatuses[j]
  {
    forall m: PaymentStatus ensures m in PaymentStatuses {
      assert PaymentStatuses[m.Ordinal()] == m;
    }
    assert forall i :: 0 <= i < |PaymentStatuses| ==> PaymentStatuses[i].Ordinal() == i;
  }

  /** Decoding the wire string of a member gives that member back. */
  lemma PaymentStatusRoundTrip()
    ensures forall m: PaymentStatus :: PaymentStatus.FromWire(m.Wire()) == Some(m)
  {
  }

  /** Exactly the declared strings decode, each to the member that encodes to it. */
  lemma PaymentStatusDecoding()
    ensures forall w :: PaymentStatus.FromWire(w).Some? ==> PaymentStatus.FromWire(w).value.Wire() == w
    ensures forall w :: PaymentStatus.FromWire(w).Some? <==> w in PaymentStatusWires
  {
  }

  lemma PaymentStatusEncoding()
    ensures IsEncoding(PaymentStatuses, (m: PaymentStatus) => m.Wire(), PaymentStatus.FromWire)
    ensures |PaymentStatuses| == 4
    ensures forall w :: PaymentStatus.FromWire(w).Some? <==> w in PaymentStatusWires
  {
    PaymentStatusListing();
    PaymentStatusRoundTrip();
    PaymentStatusDecoding();
  }

  /** Refund request processing status. */
  datatype RefundStatus = Requested | Approved | Denied | Processed | Completed | Cancelled {
    function Wire(): string {
      match this
      case Requested => "REQUESTED"
      case Approved => "APPROVED"
      case Denied => "DENIED"
      case Processed => "PROCESSED"
      case Completed => "COMPLETED"
      case Cancelled => "CANCELLED"
    }

    /** Position in declaration order. */
    function Ordinal(): nat {
      match this
      case Requested => 0
      case Approved => 1
      case Denied => 2
      case Processed => 3
      case Completed => 4
      case Cancelled => 5
    }

    /** Value lookup, as `RefundStatus(w)` does in Python. */
    static function FromWire(w: string): Option<RefundStatus> {
      match w
      case "REQUESTED" => Some(RefundStatus.Requested)
      case "APPROVED" => Some(RefundStatus.Approved)
      case "DENIED" => Some(RefundStatus.Denied)
      case "PROCESSED" => Some(RefundStatus.Processed)
      case "COMPLETED" => Some(RefundStatus.Completed)
      case "CANCELLED" => Some(RefundStatus.Cancelled)
      case _ => None
    }
  }

  const RefundStatuses: seq<RefundStatus> := [
    RefundStatus.Requested, RefundStatus.Approved, RefundStatus.Denied,
    RefundStatus.Processed, RefundStatus.Completed, RefundStatus.Cancelled
  ]

  const RefundStatusWires: set<string> := {
    "REQUESTED", "APPROVED", "DENIED", "PROCESSED", "COMPLETED", "CANCELLED"
  }

  /** `RefundStatuses` lists every RefundStatus once. */
  lemma RefundStatusListing()
    ensures forall m: RefundStatus :: m in RefundStatuses
    ensures forall i, j :: 0 <= i < j < |RefundStatuses| ==> RefundStatuses[i] != RefundStatuses[j]
  {
    forall m: RefundStatus ensures m in RefundStatuses {
      assert RefundStatuses[m.Ordinal()] == m;
    }
    assert forall i :: 0 <= i < |RefundStatuses| ==> RefundStatuses[i].Ordinal() == i;
  }

  /** Decoding the wire string of a member gives that member back. */
  lemma RefundStatusRoundTrip()
    ensures forall m: RefundStatus :: RefundStatus.FromWire(m.Wire()) == Some(m)
  {
  }

  /** Exactly the declared strings decode, each to the member that encodes to it. */
  lemma RefundStatusDecoding()
    ensures forall w :: RefundStatus.FromWire(w).Some? ==> RefundStatus.FromWire(w).value.Wire() == w
    ensures forall w :: RefundStatus.FromWire(w).Some? <==> w in RefundStatusWires
  {
  }

  lemma RefundStatusEncoding()
    ensures IsEncoding(RefundStatuses, (m: RefundStatus) => m.Wire(), RefundStatus.FromWire)
    ensures |RefundStatuses| == 6
    ensures forall w :: RefundStatus.FromWire(w).Some? <==> w in RefundStatusWires
  {
    RefundStatusListing();
    RefundStatusRoundTrip();
    RefundStatusDecoding();
  }

  /** Types of refund request; the only enum whose wire strings are lower case. */
  datatype RefundType = BookingCancellation | DisputeResolution | Goodwill {
    function Wire(): string {
      match this
      case BookingCancellation => "booking_cancellation"
      case DisputeResolution => "dispute_resolution"
      case Goodwill => "goodwill"
    }

    /** Position in declaration order. */
    function Ordinal(): nat {
      match this
      case BookingCancellation => 0
      case DisputeResolution => 1
      case Goodwill => 2
    }

    /** Value lookup, as `RefundType(w)` does in Python. */
    static function FromWire(w: string): Option<RefundType> {
      match w
      case "booking_cancellation" => Some(RefundType.BookingCancellation)
      case "dispute_resolution" => Some(RefundType.DisputeResolution)
      case "goodwill" => Some(RefundType.Goodwill)
      case _ => None
    }
  }

  const RefundTypes: seq<RefundType> := [
    RefundType.BookingCancellation, RefundType.DisputeResolution, RefundType.Goodwill
  ]

  const RefundTypeWires: set<string> := {
    "booking_cancellation", "dispute_resolution", "goodwill"
  }

  /** `RefundTypes` lists every RefundType once. */
  lemma RefundTypeListing()
    ensures forall m: RefundType :: m in RefundTypes
    ensures forall i, j :: 0 <= i < j < |RefundTypes| ==> RefundTypes[i] != RefundTypes[j]
  {
    forall m: RefundType ensures m in RefundTypes {
      assert RefundTypes[m.Ordinal()] == m;
    }
    assert forall i :: 0 <= i < |RefundTypes| ==> RefundTypes[i].Ordinal() == i;
  }

  /** Decoding the wire string of a member gives that member back. */
  lemma RefundTypeRoundTrip()
    ensures forall m: RefundType :: RefundType.FromWire(m.Wire()) == Some(m)
  {
  }

  /** Exactly the declared strings decode, each to the member that encodes to it. */
  lemma RefundTypeDecoding()
    ensures forall w :: RefundType.FromWire(w).Some? ==> RefundType.FromWire(w).value.Wire() == w
    ensures forall w :: RefundType.FromWire(w).Some? <==> w in RefundTypeWires
  {
  }

  lemma RefundTypeEncoding()
    ensures IsEncoding(RefundTypes, (m: RefundType) => m.Wire(), RefundType.FromWire)
    ensures |RefundTypes| == 3
    ensures forall w :: RefundType.FromWire(w).Some? <==> w in RefundTypeWires
  {
    RefundTypeListing();
    RefundTypeRoundTrip();
    RefundTypeDecoding();
  }

  /** Unlike every other enumeration here, refund types go on the wire in lower case. */
  lemma RefundTypeLowerCase()
    ensures forall m: RefundType :: IsLowerSnake(m.Wire())
  {
    forall m: RefundType ensures IsLowerSnake(m.Wire()) {
      match m
      case BookingCancellation =>
      case DisputeResolution =>
      case Goodwill =>
    }
  }

  /** Reward points lifecycle status. */
  datatype RewardStatus = Earned | Redeemed | Expired {
    function Wire(): string {
      match this
      case Earned => "EARNED"
      case Redeemed => "REDEEMED"
      case Expired => "EXPIRED"
    }

    /** Position in declaration order. */
    function Ordinal(): nat {
      match this
      case Earned => 0
      case Redeemed => 1
      case Expired => 2
    }

    /** Value lookup, as `RewardStatus(w)` does in Python. */
    static function FromWire(w: string): Option<RewardStatus> {
      match w
      case "EARNED" => Some(RewardStatus.Earned)
      case "REDEEMED" => Some(RewardStatus.Redeemed)
      case "EXPIRED" => Some(RewardStatus.Expired)
      case _ => None
    }
  }

  const RewardStatuses: seq<RewardStatus> := [
    RewardStatus.Earned, RewardStatus.Redeemed, RewardStatus.Expired
  ]

  const RewardStatusWires: set<string> := {
    "EARNED", "REDEEMED", "EXPIRED"
  }

  /** `RewardStatuses` lists every RewardStatus once. */
  lemma RewardStatusListing()
    ensures forall m: RewardStatus :: m in RewardStatuses
    ensures forall i, j :: 0 <= i < j < |RewardStatuses| ==> RewardStatuses[i] != RewardStatuses[j]
  {
    forall m: RewardStatus ensures m in RewardStatuses {
      assert RewardStatuses[m.Ordinal()] == m;
    }
    assert forall i :: 0 <= i < |RewardStatuses| ==> RewardStatuses[i].Ordinal() == i;
  }

  /** Decoding the wire string of a member gives that member back. */
  lemma RewardStatusRoundTrip()
    ensures forall m: RewardStatus :: RewardStatus.FromWire(m.Wire()) == Some(m)
  {
  }

  /** Exactly the declared strings decode, each to the member that encodes to it. */
  lemma RewardStatusDecoding()
    ensures forall w :: RewardStatus.FromWire(w).Some? ==> RewardStatus.FromWire(w).value.Wire() == w
    ensures forall w :: RewardStatus.FromWire(w).Some? <==> w in RewardStatusWires
  {
  }

  lemma RewardStatusEncoding()
    ensures IsEncoding(RewardStatuses, (m: RewardStatus) => m.Wire(), RewardStatus.FromWire)
    ensures |RewardStatuses| == 3
    ensures forall w :: RewardStatus.FromWire(w).Some? <==> w in RewardStatusWires
  {
    RewardStatusListing();
    RewardStatusRoundTrip();
    RewardStatusDecoding();
  }

  /** The alias kept for backward compatibility names the same enumeration. */
  type ProductType = CreditCardProduct

  /**
   * Token types.  The enumeration is imported by the integration shapes but
   * its declaration is not part of this model, so the shapes take its set of
   * wire strings as a parameter.  SINGLE_USE, the declared default of a token
   * request, is the one member the source names.
   */
  const TokenTypeSingleUse: string := "SINGLE_USE"
}
