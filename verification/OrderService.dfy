/** Validation and totals of a create command (internal/commerce/service.go). Amounts are 64-bit
    integers that wrap around. */
module OrderService {
  import opened OrderModel
  import opened OrderStore
  import opened Saga
  import opened Text

  datatype Line = Line(sku: string, quantity: int, unitPrice: int, currency: string)

  datatype Command = Command(external: string, currency: string, email: string, country: string, lines: seq<Line>,
                             provider: string, token: string)

  const SHIPPING: int := 1200
  const MIN_KEY: nat := 12

  datatype Problem =
    | MerchantMissing
    | KeyTooShort
    | ExternalMissing
    | BadCurrency
    | EmailMissing
    | CountryMissing
    | NoItems
    | SkuMissing(line: nat)
    | SkuRepeats(line: nat, first: nat)
    | BadQuantity(line: nat)
    | NegativePrice(line: nat)
    | OtherCurrency(line: nat)
    | ProviderMissing
    | TokenMissing

  // ------------------------------------------------------------ validation

  /** The index of the first line with the same trimmed SKU. */
  ghost predicate FirstWith(lines: seq<Line>, sku: string, first: nat) {
    first < |lines| && Trim(lines[first].sku) == sku && forall k :: 0 <= k < first ==> Trim(lines[k].sku) != sku
  }

  /** A problem one of the first `n` lines has. */
  ghost predicate LineHas(c: Command, n: nat, p: Problem)
    requires n <= |c.lines|
  {
    match p
    case SkuMissing(i) => i < n && Blank(c.lines[i].sku)
    case SkuRepeats(i, first) => i < n && !Blank(c.lines[i].sku) && first < i && FirstWith(c.lines, Trim(c.lines[i].sku), first)
    case BadQuantity(i) => i < n && c.lines[i].quantity < 1
    case NegativePrice(i) => i < n && c.lines[i].unitPrice < 0
    case OtherCurrency(i) => i < n && c.lines[i].currency != c.currency
    case _ => false
  }

  ghost predicate HeadHas(merchant: string, key: string, c: Command, p: Problem) {
    match p
    case MerchantMissing => Blank(merchant)
    case KeyTooShort => |Trim(key)| < 12
    case ExternalMissing => Blank(c.external)
    case BadCurrency => |c.currency| != 3
    case EmailMissing => Blank(c.email)
    case CountryMissing => Blank(c.country)
    case NoItems => |c.lines| == 0
    case _ => false
  }

  ghost predicate PaymentHas(c: Command, p: Problem) {
    match p
    case ProviderMissing => Blank(c.provider)
    case TokenMissing => Blank(c.token)
    case _ => false
  }

  ghost predicate Has(merchant: string, key: string, c: Command, p: Problem) {
    HeadHas(merchant, key, c, p) || LineHas(c, |c.lines|, p) || PaymentHas(c, p)
  }

  /** A command that may become an order. */
  ghost predicate Acceptable(merchant: string, key: string, c: Command) {
    && !Blank(merchant) && |Trim(key)| >= 12 && !Blank(c.external) && |c.currency| == 3
    && !Blank(c.email) && !Blank(c.country) && !Blank(c.provider) && !Blank(c.token)
    && |c.lines| > 0
    && (forall i :: 0 <= i < |c.lines| ==> Sound(c, c.lines[i]))
    && (forall i, j :: 0 <= i < j < |c.lines| ==> Trim(c.lines[i].sku) != Trim(c.lines[j].sku))
  }

  predicate Sound(c: Command, l: Line) {
    !Blank(l.sku) && l.quantity >= 1 && l.unitPrice >= 0 && l.currency == c.currency
  }

  /** Where a problem stands in the report: first the head, then line by line, then the payment. */
  function Rank(c: Command, p: Problem): (n: nat) {
    match p
    case MerchantMissing => 0
    case KeyTooShort => 1
    case ExternalMissing => 2
    case BadCurrency => 3
    case EmailMissing => 4
    case CountryMissing => 5
    case NoItems => 6
    case SkuMissing(i) => LineRank(i)
    case SkuRepeats(i, _) => LineRank(i)
    case BadQuantity(i) => LineRank(i) + 1
    case NegativePrice(i) => LineRank(i) + 2
    case OtherCurrency(i) => LineRank(i) + 3
    case ProviderMissing => LineRank(|c.lines|)
    case TokenMissing => LineRank(|c.lines|) + 1
  }

  function LineRank(i: nat): (n: nat) {
    7 + 4 * i
  }

  /** Strictly increasing ranks from `low` up to but not including `high`. */
  ghost predicate InOrder(c: Command, ps: seq<Problem>, low: nat, high: nat) {
    && (forall i :: 0 <= i < |ps| ==> low <= Rank(c, ps[i]) < high)
    && forall i, j :: 0 <= i < j < |ps| ==> Rank(c, ps[i]) < Rank(c, ps[j])
  }

  lemma OrderedConcat(c: Command, ps: seq<Problem>, more: seq<Problem>, low: nat, middle: nat, high: nat)
    requires InOrder(c, ps, low, middle) && InOrder(c, more, middle, high) && low <= middle <= high
    ensures InOrder(c, ps + more, low, high)
  {
  }

  /** Appends a problem if its check failed. */
  method Note(c: Command, ps: seq<Problem>, failed: bool, p: Problem, ghost low: nat) returns (ps': seq<Problem>)
    requires InOrder(c, ps, low, Rank(c, p)) && low <= Rank(c, p)
    ensures forall q :: q in ps' <==> q in ps || (failed && q == p)
    ensures InOrder(c, ps', low, Rank(c, p) + 1)
  {
    ps' := if failed then ps + [p] else ps;
  }

  method HeadProblems(merchant: string, key: string, c: Command) returns (ps: seq<Problem>)
    ensures forall p :: p in ps <==> HeadHas(merchant, key, c, p)
    ensures InOrder(c, ps, 0, LineRank(0))
  {
    ps := [];
    assert InOrder(c, ps, 0, 0);
    hide Trim, Blank, InOrder;
    ps := Note(c, ps, Blank(merchant), MerchantMissing, 0);
    ps := Note(c, ps, |Trim(key)| < MIN_KEY, KeyTooShort, 0);
    ps := Note(c, ps, Blank(c.external), ExternalMissing, 0);
    ps := Note(c, ps, |c.currency| != 3, BadCurrency, 0);
    ps := Note(c, ps, Blank(c.email), EmailMissing, 0);
    ps := Note(c, ps, Blank(c.country), CountryMissing, 0);
    ps := Note(c, ps, |c.lines| == 0, NoItems, 0);
  }

  /** `seen` maps each trimmed SKU of the first `n` lines to its first index. */
  ghost predicate Remembers(c: Command, n: nat, seen: map<string, nat>)
    requires n <= |c.lines|
  {
    && (forall s :: s in seen ==> s != "" && seen[s] < n && FirstWith(c.lines, s, seen[s]))
    && (forall k :: 0 <= k < n && !Blank(c.lines[k].sku) ==> Trim(c.lines[k].sku) in seen)
  }

  predicate IsSku(p: Problem) {
    p.SkuMissing? || p.SkuRepeats?
  }

  /** The SKU problems of one line, given the SKUs of the lines before it. */
  method SkuProblems(c: Command, i: nat, seen: map<string, nat>) returns (ps: seq<Problem>, seen': map<string, nat>)
    requires i < |c.lines| && Remembers(c, i, seen)
    ensures Remembers(c, i + 1, seen')
    ensures forall p :: p in ps <==> IsSku(p) && p.line == i && LineHas(c, i + 1, p)
    ensures InOrder(c, ps, LineRank(i), LineRank(i) + 1)
  {
    hide Trim;
    var sku := Trim(c.lines[i].sku);
    if sku == "" {
      return [SkuMissing(i)], seen;
    }
    if sku in seen {
      forall first: nat | FirstWith(c.lines, sku, first)
        ensures first == seen[sku]
      {
        FirstIsUnique(c.lines, sku, first, seen[sku]);
      }
      return [SkuRepeats(i, seen[sku])], seen;
    }
    ps, seen' := [], seen[sku := i];
  }

  /** All problems of one line. */
  method LineProblems(c: Command, i: nat, seen: map<string, nat>) returns (ps: seq<Problem>, seen': map<string, nat>)
    requires i < |c.lines| && Remembers(c, i, seen)
    ensures Remembers(c, i + 1, seen')
    ensures forall p :: p in ps <==> LineHas(c, i + 1, p) && !LineHas(c, i, p)
    ensures InOrder(c, ps, LineRank(i), LineRank(i + 1))
  {
    hide FirstWith, Trim, Remembers, InOrder;
    ps, seen' := SkuProblems(c, i, seen);
    var line := c.lines[i];
    ps := Note(c, ps, line.quantity < 1, BadQuantity(i), LineRank(i));
    ps := Note(c, ps, line.unitPrice < 0, NegativePrice(i), LineRank(i));
    ps := Note(c, ps, line.currency != c.currency, OtherCurrency(i), LineRank(i));
  }

  lemma FirstIsUnique(lines: seq<Line>, sku: string, a: nat, b: nat)
    requires FirstWith(lines, sku, a) && FirstWith(lines, sku, b)
    ensures a == b
  {
    assert Trim(lines[if a < b then a else b].sku) == sku;
  }

  /** Every problem the command has is reported, once and in order, and no other. */
  method ValidateCreateOrder(merchant: string, key: string, c: Command) returns (ps: seq<Problem>)
    ensures forall p :: p in ps <==> Has(merchant, key, c, p)
    ensures InOrder(c, ps, 0, LineRank(|c.lines| + 1))
    ensures ps == [] <==> Acceptable(merchant, key, c)
  {
    hide HeadHas, PaymentHas, InOrder;
    ps := HeadProblems(merchant, key, c);
    var seen: map<string, nat> := map[];
    for i := 0 to |c.lines|
      invariant Remembers(c, i, seen)
      invariant forall p :: p in ps <==> HeadHas(merchant, key, c, p) || LineHas(c, i, p)
      invariant InOrder(c, ps, 0, LineRank(i))
    {
      var more: seq<Problem>;
      more, seen := LineProblems(c, i, seen);
      LinesAccumulate(c, i);
      hide LineHas, Remembers;
      OrderedConcat(c, ps, more, 0, LineRank(i), LineRank(i + 1));
      ps := ps + more;
    }
    var more := PaymentProblems(c);
    hide LineHas;
    OrderedConcat(c, ps, more, 0, LineRank(|c.lines|), LineRank(|c.lines| + 1));
    ps := ps + more;
    NothingWrongMeansAcceptable(merchant, key, c);
    EmptyMeansNone(ps);
  }

  lemma EmptyMeansNone(ps: seq<Problem>)
    ensures ps == [] <==> forall p :: p !in ps
  {
    assert ps != [] ==> ps[0] in ps;
  }

  method PaymentProblems(c: Command) returns (ps: seq<Problem>)
    ensures forall p :: p in ps <==> PaymentHas(c, p)
    ensures InOrder(c, ps, LineRank(|c.lines|), LineRank(|c.lines| + 1))
  {
    ps := [];
    assert InOrder(c, ps, LineRank(|c.lines|), LineRank(|c.lines|));
    hide Trim;
    ps := Note(c, ps, Trim(c.provider) == "", ProviderMissing, LineRank(|c.lines|));
    ps := Note(c, ps, Trim(c.token) == "", TokenMissing, LineRank(|c.lines|));
  }

  lemma LinesAccumulate(c: Command, i: nat)
    requires i < |c.lines|
    ensures forall p :: LineHas(c, i, p) ==> LineHas(c, i + 1, p)
  {
  }

  lemma {:induction false} FirstExists(lines: seq<Line>, sku: string, i: nat) returns (first: nat)
    requires i < |lines| && Trim(lines[i].sku) == sku
    ensures first <= i && FirstWith(lines, sku, first)
    decreases i
  {
    if k: nat :| k < i && Trim(lines[k].sku) == sku {
      first := FirstExists(lines, sku, k);
    } else {
      first := i;
    }
  }

  lemma NothingWrongMeansAcceptable(merchant: string, key: string, c: Command)
    ensures (forall p :: !Has(merchant, key, c, p)) <==> Acceptable(merchant, key, c)
  {
    hide Trim;
    if forall p :: !Has(merchant, key, c, p) {
      HeadSilent(merchant, key, c);
      LinesSilent(merchant, key, c);
    }
    if Acceptable(merchant, key, c) {
      forall p
        ensures !Has(merchant, key, c, p)
      {
        if (IsSku(p) || p.BadQuantity? || p.NegativePrice? || p.OtherCurrency?) && p.line < |c.lines| {
          assert Sound(c, c.lines[p.line]);
        }
      }
    }
  }

  lemma HeadSilent(merchant: string, key: string, c: Command)
    requires forall p :: !Has(merchant, key, c, p)
    ensures !Blank(merchant) && |Trim(key)| >= 12 && !Blank(c.external) && |c.currency| == 3
    ensures !Blank(c.email) && !Blank(c.country) && !Blank(c.provider) && !Blank(c.token) && |c.lines| > 0
  {
    assert !Has(merchant, key, c, MerchantMissing) && !Has(merchant, key, c, KeyTooShort);
    assert !Has(merchant, key, c, ExternalMissing) && !Has(merchant, key, c, BadCurrency);
    assert !Has(merchant, key, c, EmailMissing) && !Has(merchant, key, c, CountryMissing) && !Has(merchant, key, c, NoItems);
    assert !Has(merchant, key, c, ProviderMissing) && !Has(merchant, key, c, TokenMissing);
  }

  lemma LinesSilent(merchant: string, key: string, c: Command)
    requires forall p :: !Has(merchant, key, c, p)
    ensures forall i :: 0 <= i < |c.lines| ==> Sound(c, c.lines[i])
    ensures forall i, j :: 0 <= i < j < |c.lines| ==> Trim(c.lines[i].sku) != Trim(c.lines[j].sku)
  {
    forall i | 0 <= i < |c.lines|
      ensures Sound(c, c.lines[i])
    {
      assert !Has(merchant, key, c, SkuMissing(i)) && !Has(merchant, key, c, BadQuantity(i));
      assert !Has(merchant, key, c, NegativePrice(i)) && !Has(merchant, key, c, OtherCurrency(i));
    }
    forall i, j | 0 <= i < j < |c.lines|
      ensures Trim(c.lines[i].sku) != Trim(c.lines[j].sku)
    {
      var first := FirstExists(c.lines, Trim(c.lines[i].sku), i);
      assert !Has(merchant, key, c, SkuMissing(j)) && !Has(merchant, key, c, SkuRepeats(j, first));
    }
  }

  // ------------------------------------------------------------ totals

  const TWO_63: int := 0x8000_0000_0000_0000

  /** A 64-bit result after wrap-around. */
  function Wrap64(x: int): (r: int)
    ensures -TWO_63 <= r < TWO_63
    ensures r == x <==> -TWO_63 <= x < TWO_63
  {
    (x + TWO_63) % (2 * TWO_63) - TWO_63
  }

  /** Whole turns make no difference. */
  lemma WrapTurns(x: int, k: int)
    ensures Wrap64(x + k * (2 * TWO_63)) == Wrap64(x)
  {
  }

  /** Wrapping a summand first does not matter. */
  lemma WrapAbsorbs(a: int, b: int)
    ensures Wrap64(Wrap64(a) + Wrap64(b)) == Wrap64(a + b)
  {
    var x, y := (a + TWO_63) / (2 * TWO_63), (b + TWO_63) / (2 * TWO_63);
    assert Wrap64(a) == a - x * (2 * TWO_63) && Wrap64(b) == b - y * (2 * TWO_63);
    hide Wrap64;
    WrapTurns(a + b, -x - y);
  }

  /** The exact value of the lines. */
  function Exact(lines: seq<Line>): (sum: int) {
    if |lines| == 0 then 0
    else Exact(lines[..|lines| - 1]) + lines[|lines| - 1].quantity * lines[|lines| - 1].unitPrice
  }

  /** The items are the lines, one for one. */
  ghost predicate AsOrdered(items: seq<Item>, lines: seq<Line>) {
    && |items| == |lines|
    && forall i :: 0 <= i < |lines| ==>
         items[i].sku == lines[i].sku && items[i].quantity == lines[i].quantity && items[i].unitPrice == lines[i].unitPrice
  }

  /** What the items of an order are worth. */
  function Value(items: seq<Item>): (sum: int) {
    if |items| == 0 then 0
    else Value(items[..|items| - 1]) + items[|items| - 1].quantity * items[|items| - 1].unitPrice
  }

  lemma {:induction false} SameValue(items: seq<Item>, lines: seq<Line>)
    requires AsOrdered(items, lines)
    ensures Value(items) == Exact(lines)
  {
    if |items| > 0 {
      SameValue(items[..|items| - 1], lines[..|lines| - 1]);
    }
  }

  function Drafts(lines: seq<Line>): (items: seq<Item>)
    ensures AsOrdered(items, lines)
    ensures forall i :: 0 <= i < |items| ==> items[i].reservation == ItemPending
  {
    seq(|lines|, i requires 0 <= i < |lines| => Item(lines[i].sku, lines[i].quantity, lines[i].unitPrice, ItemPending))
  }

  method Price(lines: seq<Line>) returns (subtotal: int, items: seq<Item>)
    ensures subtotal == Wrap64(Exact(lines))
    ensures items == Drafts(lines) && AsOrdered(items, lines)
  {
    subtotal, items := 0, [];
    for i := 0 to |lines|
      invariant subtotal == Wrap64(Exact(lines[..i]))
      invariant items == Drafts(lines[..i])
    {
      var amount := lines[i].quantity * lines[i].unitPrice;
      assert lines[..i + 1][..i] == lines[..i];
      WrapAbsorbs(Exact(lines[..i]), amount);
      subtotal := Wrap64(subtotal + Wrap64(amount));
      items := items + [Item(lines[i].sku, lines[i].quantity, lines[i].unitPrice, ItemPending)];
    }
    assert lines[..|lines|] == lines;
  }

  lemma {:induction false} ExactIsNotNegative(c: Command, n: nat)
    requires n <= |c.lines| && forall i :: 0 <= i < |c.lines| ==> Sound(c, c.lines[i])
    ensures Exact(c.lines[..n]) >= 0
  {
    if n > 0 {
      assert c.lines[..n][..n - 1] == c.lines[..n - 1];
      ExactIsNotNegative(c, n - 1);
      assert Sound(c, c.lines[n - 1]);
      ProductIsNotNegative(c.lines[n - 1].quantity, c.lines[n - 1].unitPrice);
    }
  }

  lemma ProductIsNotNegative(a: int, b: int)
    requires a >= 0 && b >= 0
    ensures a * b >= 0
  {
  }

  // ------------------------------------------------------------ creating

  datatype Created = Accepted(order: Order) | Rejected(problems: seq<Problem>)

  /** The order an acceptable command becomes, under a new ID. */
  function Drafted(merchant: string, c: Command, id: string): (o: Order)
    ensures o.id == id && o.merchant == merchant && o.external == c.external && o.currency == c.currency
    ensures AsOrdered(o.items, c.lines)
    ensures o.payment.Some? && o.payment.value.provider == c.provider
  {
    Order(id, merchant, c.external, StatusPendingFulfillment, c.currency,
      Totals(Wrap64(Exact(c.lines)), SHIPPING, Wrap64(Exact(c.lines) + SHIPPING)),
      Drafts(c.lines), Some(Payment(c.provider, PendingAuthorization, "")), None)
  }

  method CreateOrder(merchant: string, key: string, c: Command, id: string) returns (r: Created)
    ensures r.Accepted? <==> Acceptable(merchant, key, c)
    ensures r.Accepted? ==> r.order == Drafted(merchant, c, id) && AsOrdered(r.order.items, c.lines)
    ensures r.Accepted? ==> r.order.external == c.external && r.order.currency == c.currency
    ensures r.Accepted? ==> r.order.payment.Some? && r.order.payment.value.provider == c.provider
    ensures r.Accepted? ==> r.order.totals.total == Wrap64(Value(r.order.items) + 1200)
    ensures r.Rejected? ==> forall p :: p in r.problems <==> Has(merchant, key, c, p)
  {
    hide Acceptable, Has;
    var problems := ValidateCreateOrder(merchant, key, c);
    if problems != [] {
      return Rejected(problems);
    }
    var subtotal, items := Price(c.lines);
    WrapAbsorbs(Exact(c.lines), SHIPPING);
    SameValue(items, c.lines);
    r := Accepted(Order(id, merchant, c.external, StatusPendingFulfillment, c.currency,
      Totals(subtotal, SHIPPING, Wrap64(subtotal + SHIPPING)), items,
      Some(Payment(c.provider, PendingAuthorization, "")), None));
  }

  /** The total of an accepted command is its exact value plus 12.00 shipping if and only if that fits in 64
      bits; then the subtotal is exact too and neither is negative. */
  lemma TotalIsExactWhen(merchant: string, key: string, c: Command, id: string)
    requires Acceptable(merchant, key, c)
    ensures var t := Drafted(merchant, c, id).totals;
      && (t.total == Exact(c.lines) + 1200 <==> Exact(c.lines) + 1200 < TWO_63)
      && (Exact(c.lines) + 1200 < TWO_63 ==> t.subtotal == Exact(c.lines) >= 0 && t.total == t.subtotal + t.shipping)
  {
    hide Trim;
    ExactIsNotNegative(c, |c.lines|);
    assert c.lines[..|c.lines|] == c.lines;
  }

  /** The total of an accepted command is negative if and only if the exact sum, counted modulo 2^64, falls in
      the upper half. */
  lemma TotalIsNegativeWhen(merchant: string, key: string, c: Command, id: string)
    requires Acceptable(merchant, key, c)
    ensures Drafted(merchant, c, id).totals.total < 0 <==> (Exact(c.lines) + SHIPPING) % (2 * TWO_63) >= TWO_63
  {
    hide Acceptable, Exact, Wrap64;
    UpperHalf(Exact(c.lines) + SHIPPING);
  }

  lemma UpperHalf(x: int)
    ensures Wrap64(x) < 0 <==> x % (2 * TWO_63) >= TWO_63
  {
    var rest := x % (2 * TWO_63);
    assert x == rest + x / (2 * TWO_63) * (2 * TWO_63);
    WrapTurns(rest, x / (2 * TWO_63));
    assert rest >= TWO_63 ==> Wrap64(rest - 2 * TWO_63) == rest - 2 * TWO_63;
    WrapTurns(rest - 2 * TWO_63, 1);
  }

  /** A command with the dearest possible line is accepted, and its total is negative. */
  lemma DearestLineIsAccepted()
    ensures var c := Command("x", "EUR", "e", "c", [Line("a", 1, TWO_63 - 1, "EUR")], "p", "t");
      Acceptable("m", "abcdefghijkl", c) && Drafted("m", c, "o").totals.total < 0
  {
    var c := Command("x", "EUR", "e", "c", [Line("a", 1, TWO_63 - 1, "EUR")], "p", "t");
    SingleLetter("m");
    SingleLetter("x");
    SingleLetter("e");
    SingleLetter("c");
    SingleLetter("p");
    SingleLetter("t");
    SingleLetter("a");
    TrimKeeps("abcdefghijkl");
    hide Trim, Blank;
    assert c.lines[..0] == [];
    assert Exact(c.lines) == TWO_63 - 1;
  }

  lemma SingleLetter(s: string)
    requires |s| == 1 && !IsSpace(s[0])
    ensures !Blank(s)
  {
  }

  /** What passes validation is what the fulfilment state machine takes as a new order. */
  lemma AcceptedCommandIsNew(s: Store, merchant: string, key: string, c: Command, id: string)
    requires Acceptable(merchant, key, c) && id != "" && id !in s.orders
    ensures NewOrder(s, merchant, Drafted(merchant, c, id))
  {
    var o := Drafted(merchant, c, id);
    assert Blank("");
    forall i, j | 0 <= i < j < |o.items|
      ensures o.items[i].sku != o.items[j].sku
    {
      assert Trim(c.lines[i].sku) != Trim(c.lines[j].sku);
    }
    forall i | 0 <= i < |o.items|
      ensures o.items[i].quantity > 0 && o.items[i].unitPrice >= 0 && o.items[i].reservation == ItemPending
    {
      assert Sound(c, c.lines[i]);
    }
  }
}
