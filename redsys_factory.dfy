/** The payment request builder: from one order snapshot it assembles the
    Redsys merchant parameters and the EMV 3-D Secure address and
    authentication block. The order is loaded lazily, once, and every field
    of the request is read from that one snapshot. */
module RedsysFactory {
  import opened PhpNumbers

  datatype Option<T> = None | Some(value: T)

  /** A line item as `getAllVisibleItems` returns it. */
  datatype Item = Item(name: string, qtyToInvoice: nat)

  /** An order address; `street` holds the street lines in order. */
  datatype Address = Address(street: seq<string>, city: string, postcode: string, countryId: string)

  /** The fields of a sales order the builder reads. `baseGrandTotal` is in
      ten-thousandths of the base currency unit. */
  datatype Order = Order(
    incrementId: string,
    baseGrandTotal: int,
    customerFirstname: string,
    customerLastname: string,
    customerEmail: string,
    visibleItems: seq<Item>,
    billing: Address,
    shipping: Address)

  /** Store-scoped configuration values the builder reads. */
  datatype Config = Config(commerceName: string, commerceNum: string, terminal: string, transactionType: string)

  /** Collaborators whose code is not part of this model, as functions:
      URL generation (route, order id), the SHA-1 digest, the currency and
      language helpers, the ISO numeric country table, and the configured
      pay-methods constant. */
  datatype Host = Host(
    config: Config,
    getUrl: (string, string) -> string,
    sha1: string -> string,
    currency: Order -> string,
    language: string,
    countryNumericCode: string -> string,
    payMethods: string)

  /** A merchant parameter value: the amount is a number, the EMV3DS block
      an associative array, every other parameter a string. */
  datatype Value = Number(n: int) | Text(s: string) | Fields(m: map<EmvField, string>)

  const ResultRoute := "redsys/result"
  const OkRoute := "redsys/okresult"
  const KoRoute := "redsys/koresult"
  const ModuleTag := "catgento_redsys"

  /** The builder reads the first street line of both addresses without a
      guard; an order without them is outside what it handles. */
  predicate HasStreets(o: Order) {
    |o.shipping.street| > 0 && |o.billing.street| > 0
  }

  /** DS_MERCHANT_AMOUNT: the grand total formatted with two decimals and
      no separators, then cast back to a number. */
  function RedsysAmount(o: Order): (a: int)
    ensures a == RoundToCents(o.baseGrandTotal)
  {
    FormattedAmountIsMinorUnits(o.baseGrandTotal);
    CastToNumber(NumberFormat2(o.baseGrandTotal))
  }

  /** One product entry: name, "X", quantity to invoice, "/". */
  function ItemEntry(item: Item): string {
    item.name + "X" + NatToString(item.qtyToInvoice) + "/"
  }

  /** Ds_Merchant_ProductDescription: the entries of the items in order. */
  function ProductDescription(items: seq<Item>): (s: string)
    ensures |s| >= 3 * |items|
    ensures s == [] <==> items == []
  {
    if items == [] then "" else ProductDescription(items[..|items| - 1]) + ItemEntry(items[|items| - 1])
  }

  /** The description of a concatenation of item lists is the concatenation
      of their descriptions. */
  lemma {:induction false} ProductDescriptionAppend(a: seq<Item>, b: seq<Item>)
    ensures ProductDescription(a + b) == ProductDescription(a) + ProductDescription(b)
    decreases |b|
  {
    if b == [] {
      assert a + b == a;
    } else {
      var front := b[..|b| - 1];
      assert (a + b)[..|a + b| - 1] == a + front;
      assert (a + b)[|a + b| - 1] == b[|b| - 1];
      ProductDescriptionAppend(a, front);
    }
  }

  /** How many times `c` occurs in `s`. */
  function Occurrences(c: char, s: string): nat {
    if s == [] then 0 else Occurrences(c, s[..|s| - 1]) + (if s[|s| - 1] == c then 1 else 0)
  }

  lemma {:induction false} OccurrencesAppend(c: char, a: string, b: string)
    ensures Occurrences(c, a + b) == Occurrences(c, a) + Occurrences(c, b)
    decreases |b|
  {
    if b != [] {
      assert (a + b)[..|a + b| - 1] == a + b[..|b| - 1];
      OccurrencesAppend(c, a, b[..|b| - 1]);
    } else {
      assert a + b == a;
    }
  }

  lemma {:induction false} NoOccurrencesInDigits(c: char, s: string)
    requires AllDigits(s) && !IsDigit(c)
    ensures Occurrences(c, s) == 0
    decreases |s|
  {
    if s != [] {
      NoOccurrencesInDigits(c, s[..|s| - 1]);
    }
  }

  /** How many times `c` occurs in the names of `items`. */
  function NameOccurrences(c: char, items: seq<Item>): nat {
    if items == [] then 0 else NameOccurrences(c, items[..|items| - 1]) + Occurrences(c, items[|items| - 1].name)
  }

  /** Every item contributes exactly one "X" and one "/" of its own; any
      further ones come from the item names. With names free of them, a
      description of n items holds n of each. */
  lemma {:induction false} ProductDescriptionSeparators(items: seq<Item>)
    ensures Occurrences('X', ProductDescription(items)) == |items| + NameOccurrences('X', items)
    ensures Occurrences('/', ProductDescription(items)) == |items| + NameOccurrences('/', items)
    decreases |items|
  {
    if items != [] {
      var front := items[..|items| - 1];
      var item := items[|items| - 1];
      var qty := NatToString(item.qtyToInvoice);
      ProductDescriptionSeparators(front);
      NoOccurrencesInDigits('X', qty);
      NoOccurrencesInDigits('/', qty);
      assert ItemEntry(item) == item.name + "X" + qty + "/";
      forall c: char | c == 'X' || c == '/'
        ensures Occurrences(c, ItemEntry(item)) == 1 + Occurrences(c, item.name)
      {
        OccurrencesAppend(c, item.name + "X" + qty, "/");
        OccurrencesAppend(c, item.name + "X", qty);
        OccurrencesAppend(c, item.name, "X");
        assert Occurrences(c, "X") == (if c == 'X' then 1 else 0) by {
          assert "X"[..0] == [];
        }
        assert Occurrences(c, "/") == (if c == '/' then 1 else 0) by {
          assert "/"[..0] == [];
        }
      }
      OccurrencesAppend('X', ProductDescription(front), ItemEntry(item));
      OccurrencesAppend('/', ProductDescription(front), ItemEntry(item));
    }
  }

  /** The worked example: a shirt twice and a hat once. */
  lemma ProductDescriptionExample()
    ensures ProductDescription([Item("Shirt", 2), Item("Hat", 1)]) == "ShirtX2/HatX1/"
  {
    var items := [Item("Shirt", 2), Item("Hat", 1)];
    assert items[..1] == [Item("Shirt", 2)];
    assert items[..1][..0] == [];
    assert NatToString(2) == "2" && NatToString(1) == "1";
  }

  function CardholderName(o: Order): string {
    o.customerFirstname + " " + o.customerLastname
  }

  /** Ds_Merchant_Titular (the translated "Email: " label is taken as is). */
  function Titular(o: Order): string {
    o.customerFirstname + " " + o.customerLastname + "/ " + "Email: " + o.customerEmail
  }

  /** The titular begins with the cardholder name the EMV3DS block sends
      and ends with the customer's email. */
  lemma TitularExtendsCardholderName(o: Order)
    ensures Titular(o) == CardholderName(o) + "/ Email: " + o.customerEmail
    ensures Titular(o)[..|CardholderName(o)|] == CardholderName(o)
    ensures Titular(o)[|Titular(o)| - |o.customerEmail|..] == o.customerEmail
  {
  }

  /** Worked amounts: 10.5 gives 1050, 100.00 gives 10000, 0.05 gives 5,
      19.90 gives 1990 and 0.005 rounds up to 1. */
  lemma RedsysAmountExamples(o: Order)
    ensures RedsysAmount(o.(baseGrandTotal := 105000)) == 1050
    ensures RedsysAmount(o.(baseGrandTotal := 1000000)) == 10000
    ensures RedsysAmount(o.(baseGrandTotal := 500)) == 5
    ensures RedsysAmount(o.(baseGrandTotal := 199000)) == 1990
    ensures RedsysAmount(o.(baseGrandTotal := 50)) == 1
  {
  }

  /** A total that is a whole number of cents is sent exactly. */
  lemma RedsysAmountExact(o: Order)
    requires o.baseGrandTotal % 100 == 0
    ensures 100 * RedsysAmount(o) == o.baseGrandTotal
  {
  }

  /** The fields of the EMV3DS block; `EmvKey` gives the array key the
      builder writes for each. */
  datatype EmvField =
    | Cardholder | Email
    | ShipAddrLine1 | ShipAddrLine2 | ShipAddrCity | ShipAddrPostCode | ShipAddrCountry
    | BillAddrLine1 | BillAddrLine2 | BillAddrCity | BillAddrPostCode | BillAddrCountry
    | AuthenticationInfo

  function EmvKey(f: EmvField): string {
    match f
    case Cardholder => "cardholderName"
    case Email => "Email"
    case ShipAddrLine1 => "shipAddrLine1"
    case ShipAddrLine2 => "shipAddrLine2"
    case ShipAddrCity => "shipAddrCity"
    case ShipAddrPostCode => "shipAddrPostCode"
    case ShipAddrCountry => "shipAddrCountry"
    case BillAddrLine1 => "billAddrLine1"
    case BillAddrLine2 => "billAddrLine2"
    case BillAddrCity => "billAddrCity"
    case BillAddrPostCode => "billAddrPostCode"
    case BillAddrCountry => "billAddrCountry"
    case AuthenticationInfo => "threeDSRequestorAuthenticationInfo"
  }

  /** The fields the EMV3DS block has for order `o`: a second street line
      only when the address has one. */
  function Emv3dsFields(o: Order): set<EmvField> {
    {Cardholder, Email,
     ShipAddrLine1, ShipAddrCity, ShipAddrPostCode, ShipAddrCountry,
     BillAddrLine1, BillAddrCity, BillAddrPostCode, BillAddrCountry,
     AuthenticationInfo}
    + (if |o.shipping.street| > 1 then {ShipAddrLine2} else {})
    + (if |o.billing.street| > 1 then {BillAddrLine2} else {})
  }

  /** The EMV3DS block for order `o`, filled as the builder fills it. */
  function Emv3dsData(o: Order, host: Host, loggedIn: bool): map<EmvField, string>
    requires HasStreets(o)
  {
    var ship := o.shipping;
    var bill := o.billing;
    var m0 := map[Cardholder := CardholderName(o), Email := o.customerEmail, ShipAddrLine1 := ship.street[0]];
    var m1 := if |ship.street| > 1 then m0[ShipAddrLine2 := ship.street[1]] else m0;
    var m2 := m1[ShipAddrCity := ship.city][ShipAddrPostCode := ship.postcode]
                [ShipAddrCountry := host.countryNumericCode(bill.countryId)][BillAddrLine1 := bill.street[0]];
    var m3 := if |bill.street| > 1 then m2[BillAddrLine2 := bill.street[1]] else m2;
    m3[BillAddrCity := bill.city][BillAddrPostCode := bill.postcode]
      [BillAddrCountry := host.countryNumericCode(bill.countryId)]
      [AuthenticationInfo := if loggedIn then "02" else "01"]
  }

  /** The merchant parameters; `ParamName` gives the name the builder
      passes to `setParameter` for each. */
  datatype Param =
    | DsAmount | DsOrder | DsMerchantCode | DsCurrency | DsTransactionType | DsTerminal
    | DsMerchantUrl | DsUrlOk | DsUrlKo | DsConsumerLanguage | DsProductDescription
    | DsTitular | DsMerchantData | DsMerchantName | DsPayMethods | DsModule | DsEmv3ds

  function ParamName(p: Param): string {
    match p
    case DsAmount => "DS_MERCHANT_AMOUNT"
    case DsOrder => "DS_MERCHANT_ORDER"
    case DsMerchantCode => "DS_MERCHANT_MERCHANTCODE"
    case DsCurrency => "DS_MERCHANT_CURRENCY"
    case DsTransactionType => "DS_MERCHANT_TRANSACTIONTYPE"
    case DsTerminal => "DS_MERCHANT_TERMINAL"
    case DsMerchantUrl => "DS_MERCHANT_MERCHANTURL"
    case DsUrlOk => "DS_MERCHANT_URLOK"
    case DsUrlKo => "DS_MERCHANT_URLKO"
    case DsConsumerLanguage => "Ds_Merchant_ConsumerLanguage"
    case DsProductDescription => "Ds_Merchant_ProductDescription"
    case DsTitular => "Ds_Merchant_Titular"
    case DsMerchantData => "Ds_Merchant_MerchantData"
    case DsMerchantName => "Ds_Merchant_MerchantName"
    case DsPayMethods => "Ds_Merchant_PayMethods"
    case DsModule => "Ds_Merchant_Module"
    case DsEmv3ds => "DS_MERCHANT_EMV3DS"
  }

  const AllParams: set<Param> := {
    DsAmount, DsOrder, DsMerchantCode, DsCurrency, DsTransactionType, DsTerminal,
    DsMerchantUrl, DsUrlOk, DsUrlKo, DsConsumerLanguage, DsProductDescription,
    DsTitular, DsMerchantData, DsMerchantName, DsPayMethods, DsModule, DsEmv3ds}

  /** The merchant parameters of order `o`, set one by one in the order
      the builder calls `setParameter`. */
  function MerchantParameters(o: Order, host: Host, loggedIn: bool): map<Param, Value>
    requires HasStreets(o)
  {
    var resultUrl := host.getUrl(ResultRoute, o.incrementId);
    map[][DsAmount := Number(RedsysAmount(o))]
      [DsOrder := Text(o.incrementId)]
      [DsMerchantCode := Text(host.config.commerceNum)]
      [DsCurrency := Text(host.currency(o))]
      [DsTransactionType := Text(host.config.transactionType)]
      [DsTerminal := Text(host.config.terminal)]
      [DsMerchantUrl := Text(resultUrl)]
      [DsUrlOk := Text(host.getUrl(OkRoute, o.incrementId))]
      [DsUrlKo := Text(host.getUrl(KoRoute, o.incrementId))]
      [DsConsumerLanguage := Text(host.language)]
      [DsProductDescription := Text(ProductDescription(o.visibleItems))]
      [DsTitular := Text(Titular(o))]
      [DsMerchantData := Text(host.sha1(resultUrl))]
      [DsMerchantName := Text(host.config.commerceName)]
      [DsPayMethods := Text(host.payMethods)]
      [DsModule := Text(ModuleTag)]
      [DsEmv3ds := Fields(Emv3dsData(o, host, loggedIn))]
  }

  /** The EMV3DS block holds exactly the fields `Emv3dsFields` lists. */
  lemma Emv3dsDataKeys(o: Order, host: Host, loggedIn: bool)
    requires HasStreets(o)
    ensures Emv3dsData(o, host, loggedIn).Keys == Emv3dsFields(o)
  {
  }

  /** Street lines: the first line of each address is always sent, the
      second exactly when the address has one. */
  lemma Emv3dsStreetLines(o: Order, host: Host, loggedIn: bool)
    requires HasStreets(o)
    ensures var m := Emv3dsData(o, host, loggedIn);
      && m[ShipAddrLine1] == o.shipping.street[0]
      && m[BillAddrLine1] == o.billing.street[0]
      && (ShipAddrLine2 in m <==> |o.shipping.street| > 1)
      && (BillAddrLine2 in m <==> |o.billing.street| > 1)
      && (ShipAddrLine2 in m ==> m[ShipAddrLine2] == o.shipping.street[1])
      && (BillAddrLine2 in m ==> m[BillAddrLine2] == o.billing.street[1])
  {
  }

  /** Both country fields carry the numeric code of the billing country. */
  lemma Emv3dsCountriesFromBilling(o: Order, host: Host, loggedIn: bool)
    requires HasStreets(o)
    ensures var m := Emv3dsData(o, host, loggedIn);
      m[ShipAddrCountry] == m[BillAddrCountry] == host.countryNumericCode(o.billing.countryId)
  {
  }

  /** The shipping address's own country never reaches the request. */
  lemma Emv3dsIgnoresShippingCountry(o: Order, country: string, host: Host, loggedIn: bool)
    requires HasStreets(o)
    ensures Emv3dsData(o.(shipping := o.shipping.(countryId := country)), host, loggedIn)
         == Emv3dsData(o, host, loggedIn)
  {
  }

  /** The authentication code is "02" for a logged-in customer and "01"
      otherwise; the cardholder is the customer's first and last name. */
  lemma Emv3dsCardholder(o: Order, host: Host, loggedIn: bool)
    requires HasStreets(o)
    ensures var m := Emv3dsData(o, host, loggedIn);
      && (m[AuthenticationInfo] == "02" <==> loggedIn)
      && (m[AuthenticationInfo] == "01" <==> !loggedIn)
      && m[Cardholder] == o.customerFirstname + " " + o.customerLastname
      && m[Email] == o.customerEmail
  {
  }

  /** DS_MERCHANT_AMOUNT is the grand total in minor units. */
  lemma AmountParameter(o: Order, host: Host, loggedIn: bool)
    requires HasStreets(o)
    ensures MerchantParameters(o, host, loggedIn)[DsAmount] == Number(RoundToCents(o.baseGrandTotal))
  {
  }

  /** DS_MERCHANT_ORDER is the increment id. */
  lemma OrderParameter(o: Order, host: Host, loggedIn: bool)
    requires HasStreets(o)
    ensures MerchantParameters(o, host, loggedIn)[DsOrder] == Text(o.incrementId)
  {
  }

  /** The three callback URLs are built for the same increment id, and the
      merchant data is the digest of the result URL. */
  lemma CallbackParameters(o: Order, host: Host, loggedIn: bool)
    requires HasStreets(o)
    ensures var p := MerchantParameters(o, host, loggedIn);
      && p[DsMerchantUrl] == Text(host.getUrl(ResultRoute, o.incrementId))
      && p[DsUrlOk] == Text(host.getUrl(OkRoute, o.incrementId))
      && p[DsUrlKo] == Text(host.getUrl(KoRoute, o.incrementId))
      && p[DsMerchantData] == Text(host.sha1(p[DsMerchantUrl].s))
  {
  }

  /** The merchant identity, terminal and transaction type come from the
      module configuration. */
  lemma ConfigurationParameters(o: Order, host: Host, loggedIn: bool)
    requires HasStreets(o)
    ensures var p := MerchantParameters(o, host, loggedIn);
      && p[DsMerchantCode] == Text(host.config.commerceNum)
      && p[DsMerchantName] == Text(host.config.commerceName)
      && p[DsTerminal] == Text(host.config.terminal)
      && p[DsTransactionType] == Text(host.config.transactionType)
  {
  }

  /** Currency, language and payment methods come from the store. */
  lemma StoreParameters(o: Order, host: Host, loggedIn: bool)
    requires HasStreets(o)
    ensures var p := MerchantParameters(o, host, loggedIn);
      && p[DsCurrency] == Text(host.currency(o))
      && p[DsConsumerLanguage] == Text(host.language)
      && p[DsPayMethods] == Text(host.payMethods)
  {
  }

  /** The descriptive parameters: products, titular and module tag. */
  lemma DescriptiveParameters(o: Order, host: Host, loggedIn: bool)
    requires HasStreets(o)
    ensures var p := MerchantParameters(o, host, loggedIn);
      && p[DsProductDescription] == Text(ProductDescription(o.visibleItems))
      && p[DsTitular] == Text(Titular(o))
      && p[DsModule] == Text("catgento_redsys")
  {
  }

  /** DS_MERCHANT_EMV3DS carries the EMV3DS block of the same order. */
  lemma Emv3dsParameter(o: Order, host: Host, loggedIn: bool)
    requires HasStreets(o)
    ensures MerchantParameters(o, host, loggedIn)[DsEmv3ds] == Fields(Emv3dsData(o, host, loggedIn))
  {
  }

  /** The request carries seventeen parameters under seventeen distinct names. */
  lemma ParameterNamesDistinct(p: Param, q: Param)
    ensures ParamName(p) == ParamName(q) ==> p == q
  {
  }

  lemma EmvKeysDistinct(f: EmvField, g: EmvField)
    ensures EmvKey(f) == EmvKey(g) ==> f == g
  {
  }

  /** The request carries exactly the seventeen parameters. */
  lemma MerchantParametersKeys(o: Order, host: Host, loggedIn: bool)
    requires HasStreets(o)
    ensures MerchantParameters(o, host, loggedIn).Keys == AllParams
  {
  }

  /** The sales orders the order factory loads, by increment id. Other
      requests may change them at any time. */
  class OrderStore {
    var orders: map<string, Order>

    constructor (orders: map<string, Order>)
      ensures this.orders == orders
    {
      this.orders := orders;
    }
  }

  /** The gateway request object: `setParameter` stores a value under a
      parameter name, replacing any earlier value. */
  class RedsysApi {
    var vars: map<Param, Value>

    constructor ()
      ensures vars == map[]
    {
      vars := map[];
    }

    method SetParameter(key: Param, value: Value)
      modifies this
      ensures vars == old(vars)[key := value]
    {
      vars := vars[key := value];
    }
  }

  /** The request builder. `lastRealOrderId` is what the checkout session
      reports; `order` caches the order once it has been loaded, and the
      ghost `loads` counts how often the store was read. */
  class Factory {
    const host: Host
    const store: OrderStore
    const lastRealOrderId: string
    var order: Option<Order>
    ghost var loads: nat

    /** The store has been read once if an order is cached, never otherwise. */
    ghost predicate Valid()
      reads this
    {
      loads == if order.Some? then 1 else 0
    }

    /** Either an order is cached or the session's order exists. */
    ghost predicate CanLoad()
      reads this, store
    {
      order.Some? || lastRealOrderId in store.orders
    }

    /** The order every read of this builder sees from now on. */
    ghost function Snapshot(): Order
      reads this, store
      requires CanLoad()
    {
      if order.Some? then order.value else store.orders[lastRealOrderId]
    }

    constructor (host: Host, store: OrderStore, lastRealOrderId: string)
      ensures Valid() && order == None
      ensures this.host == host && this.store == store && this.lastRealOrderId == lastRealOrderId
    {
      this.host := host;
      this.store := store;
      this.lastRealOrderId := lastRealOrderId;
      order := None;
      loads := 0;
    }

    /** Loads the session's order on the first call and returns the cached
        snapshot on every later one. */
    method GetOrder() returns (o: Order)
      requires Valid() && CanLoad()
      modifies this
      ensures Valid() && order == Some(o)
      ensures o == old(Snapshot())
      ensures old(order).Some? ==> o == old(order).value && loads == old(loads)
      ensures old(order).None? ==> o == store.orders[lastRealOrderId] && loads == old(loads) + 1
    {
      if order.None? {
        order := Some(store.orders[lastRealOrderId]);
        loads := loads + 1;
      }
      o := order.value;
    }

    method GetRedsysAmount() returns (amount: int)
      requires Valid() && CanLoad()
      modifies this
      ensures Valid() && order == Some(old(Snapshot()))
      ensures amount == RoundToCents(old(Snapshot()).baseGrandTotal)
    {
      var o := GetOrder();
      FormattedAmountIsMinorUnits(o.baseGrandTotal);
      amount := CastToNumber(NumberFormat2(o.baseGrandTotal));
    }

    method GetRedsysOrderNumber() returns (number: string)
      requires Valid() && CanLoad()
      modifies this
      ensures Valid() && order == Some(old(Snapshot()))
      ensures number == old(Snapshot()).incrementId
    {
      var o := GetOrder();
      number := o.incrementId;
    }

    /** Appends one entry per visible item, in order. */
    method GetRedsysProducts() returns (products: string)
      requires Valid() && CanLoad()
      modifies this
      ensures Valid() && order == Some(old(Snapshot()))
      ensures products == ProductDescription(old(Snapshot()).visibleItems)
    {
      var o := GetOrder();
      var items := o.visibleItems;
      products := "";
      var i := 0;
      while i < |items|
        invariant 0 <= i <= |items|
        invariant products == ProductDescription(items[..i])
      {
        var item := items[i];
        products := products + item.name;
        products := products + "X" + NatToString(item.qtyToInvoice);
        products := products + "/";
        assert items[..i + 1][..i] == items[..i];
        i := i + 1;
      }
      assert items[..i] == items;
    }

    method GetRedsysCustomer() returns (titular: string)
      requires Valid() && CanLoad()
      modifies this
      ensures Valid() && order == Some(old(Snapshot()))
      ensures titular == Titular(old(Snapshot()))
    {
      var o := GetOrder();
      titular := o.customerFirstname + " " + o.customerLastname + "/ " + "Email: " + o.customerEmail;
    }

    /** Fills the EMV3DS block field by field. */
    method GenerateMerchantEMV3DSData(loggedIn: bool) returns (data: map<EmvField, string>)
      requires Valid() && CanLoad() && HasStreets(Snapshot())
      modifies this
      ensures Valid() && order == Some(old(Snapshot()))
      ensures data == Emv3dsData(old(Snapshot()), host, loggedIn)
    {
      var o := GetOrder();
      var bill := o.billing;
      var ship := o.shipping;
      data := map[];
      data := data[Cardholder := o.customerFirstname + " " + o.customerLastname];
      data := data[Email := o.customerEmail];
      var shippingStreet := ship.street;
      data := data[ShipAddrLine1 := shippingStreet[0]];
      if |shippingStreet| > 1 {
        data := data[ShipAddrLine2 := shippingStreet[1]];
      }
      data := data[ShipAddrCity := ship.city];
      data := data[ShipAddrPostCode := ship.postcode];
      data := data[ShipAddrCountry := host.countryNumericCode(bill.countryId)];
      var billingStreet := bill.street;
      data := data[BillAddrLine1 := billingStreet[0]];
      if |billingStreet| > 1 {
        data := data[BillAddrLine2 := billingStreet[1]];
      }
      data := data[BillAddrCity := bill.city];
      data := data[BillAddrPostCode := bill.postcode];
      data := data[BillAddrCountry := host.countryNumericCode(bill.countryId)];
      data := data[AuthenticationInfo := "01"];
      if loggedIn {
        data := data[AuthenticationInfo := "02"];
      }
    }

    /** Reads the configuration, builds the three callback URLs for the
        order's increment id and sets the seventeen parameters. */
    method CreateRedsysObject(loggedIn: bool) returns (api: RedsysApi)
      requires Valid() && CanLoad() && HasStreets(Snapshot())
      modifies this
      ensures Valid() && order == Some(old(Snapshot()))
      ensures fresh(api)
      ensures api.vars == MerchantParameters(old(Snapshot()), host, loggedIn)
    {
      ghost var snapshot := Snapshot();
      var config := host.config;
      var o := GetOrder();
      var orderId := o.incrementId;
      var commerceUrl := host.getUrl(ResultRoute, orderId);
      var koCommerceUrl := host.getUrl(KoRoute, orderId);
      var okCommerceUrl := host.getUrl(OkRoute, orderId);

      api := new RedsysApi();

      var amount := GetRedsysAmount();
      api.SetParameter(DsAmount, Number(amount));
      var number := GetRedsysOrderNumber();
      api.SetParameter(DsOrder, Text(number));
      api.SetParameter(DsMerchantCode, Text(config.commerceNum));
      o := GetOrder();
      api.SetParameter(DsCurrency, Text(host.currency(o)));
      api.SetParameter(DsTransactionType, Text(config.transactionType));
      api.SetParameter(DsTerminal, Text(config.terminal));
      api.SetParameter(DsMerchantUrl, Text(commerceUrl));
      api.SetParameter(DsUrlOk, Text(okCommerceUrl));
      api.SetParameter(DsUrlKo, Text(koCommerceUrl));
      api.SetParameter(DsConsumerLanguage, Text(host.language));
      var products := GetRedsysProducts();
      api.SetParameter(DsProductDescription, Text(products));
      var titular := GetRedsysCustomer();
      api.SetParameter(DsTitular, Text(titular));
      api.SetParameter(DsMerchantData, Text(host.sha1(commerceUrl)));
      api.SetParameter(DsMerchantName, Text(config.commerceName));
      api.SetParameter(DsPayMethods, Text(host.payMethods));
      api.SetParameter(DsModule, Text(ModuleTag));
      var emv3ds := GenerateMerchantEMV3DSData(loggedIn);
      api.SetParameter(DsEmv3ds, Fields(emv3ds));
      assert o == snapshot;
    }
  }

  /** A client: once the builder has loaded its order, a change to the
      stored order does not reach later reads; both reads see the same
      snapshot. */
  method SnapshotSurvivesStoreUpdate(factory: Factory, changed: Order) returns (first: Order, second: Order)
    requires factory.Valid() && factory.CanLoad()
    modifies factory, factory.store
    ensures first == second
    ensures factory.loads <= 1
  {
    first := factory.GetOrder();
    factory.store.orders := factory.store.orders[factory.lastRealOrderId := changed];
    second := factory.GetOrder();
  }
}
