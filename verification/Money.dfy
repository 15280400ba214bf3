// Prices: 64-bit cents, the guard against overflow, and their printed form.
module Money {
  import opened Domain

  const MaxInt64: int := 0x7FFF_FFFF_FFFF_FFFF
  const MinInt64: int := -0x8000_0000_0000_0000

  predicate IsInt64(n: int) {
    MinInt64 <= n <= MaxInt64
  }

  // Integer division that truncates toward zero.
  function Quotient(a: int, b: int): int
    requires b > 0
  {
    if a >= 0 then a / b else -(-a / b)
  }

  // The test in validateItems.
  predicate Overflows(price: int, quantity: int)
    requires quantity > 0
  {
    || (price > 0 && price > Quotient(MaxInt64, quantity))
    || (price < 0 && price < Quotient(MinInt64, quantity))
  }

  lemma TimesMonotone(x: int, y: int, q: nat)
    requires x <= y
    ensures x * q <= y * q
  {
    assert (y - x) * q >= 0;
    assert y * q == x * q + (y - x) * q;
  }

  lemma DivisionBounds(a: nat, q: nat)
    requires q > 0
    ensures (a / q) * q <= a < (a / q) * q + q
  {
    assert a == (a / q) * q + a % q;
  }

  lemma OneMoreTimes(d: int, q: nat)
    ensures (d + 1) * q == d * q + q
  {
  }

  lemma QuotientBound(a: nat, n: nat, q: nat)
    requires q > 0
    ensures n > a / q <==> n * q > a
  {
    var d := a / q;
    DivisionBounds(a, q);
    OneMoreTimes(d, q);
    if n > d {
      TimesMonotone(d + 1, n, q);
    } else {
      TimesMonotone(n, d, q);
    }
  }

  // A price is refused exactly when its product with the quantity leaves 64 bits.
  lemma GuardIsExact(price: int, quantity: int)
    requires IsInt64(price) && 1 <= quantity <= 999
    ensures Overflows(price, quantity) <==> !IsInt64(price * quantity)
  {
    if price > 0 {
      QuotientBound(MaxInt64, price, quantity);
      assert price * quantity >= 0;
    } else if price < 0 {
      QuotientBound(-MinInt64, -price, quantity);
      assert -price * quantity == -(price * quantity);
      assert -price * quantity >= 0;
    }
  }

  datatype LineItem = LineItem(name: string, quantity: int, price: int, notes: string)

  predicate IsControl(c: char) {
    c < ' ' || '\U{7F}' <= c <= '\U{9F}'
  }

  predicate TextOk(s: string, most: nat, required: bool) {
    (required ==> s != "") && |s| <= most && forall c | c in s :: !IsControl(c)
  }

  // validateText
  method ValidateText(s: string, most: nat, required: bool) returns (ok: bool)
    ensures ok <==> TextOk(s, most, required)
  {
    if required && s == "" {
      return false;
    }
    if |s| > most {
      return false;
    }
    for i := 0 to |s|
      invariant forall j | 0 <= j < i :: !IsControl(s[j])
    {
      if IsControl(s[i]) {
        return false;
      }
    }
    return true;
  }

  // No control character: none below U+0020 and none from U+007F to U+009F.
  predicate Plain(s: string) {
    forall i | 0 <= i < |s| :: (32 <= s[i] as int < 0x7F) || s[i] as int > 0x9F
  }

  lemma PlainTexts(s: string)
    ensures (forall c | c in s :: !IsControl(c)) <==> Plain(s)
  {
    assert forall i | 0 <= i < |s| :: s[i] in s;
  }

  // What an accepted item is: printable texts, a sane quantity, and a total that fits.
  predicate ItemOk(item: LineItem, prices: bool) {
    && TextOk(item.name, 200, true) && TextOk(item.notes, 500, false) && 1 <= item.quantity <= 999
    && (prices ==> IsInt64(item.price * item.quantity))
  }

  lemma PlainItem(item: LineItem)
    ensures TextOk(item.name, 200, true) <==> Plain(item.name) && 1 <= |item.name| <= 200
    ensures TextOk(item.notes, 500, false) <==> Plain(item.notes) && |item.notes| <= 500
  {
    PlainTexts(item.name);
    PlainTexts(item.notes);
    hide Plain;
  }

  // validateItems
  method ValidateItems(items: seq<LineItem>, prices: bool) returns (ok: bool)
    requires forall i | 0 <= i < |items| :: IsInt64(items[i].price)
    ensures ok <==> 1 <= |items| <= 100 && forall i | 0 <= i < |items| ::
              && Plain(items[i].name) && 1 <= |items[i].name| <= 200 && Plain(items[i].notes) && |items[i].notes| <= 500
              && 1 <= items[i].quantity <= 999
              && (prices ==> -0x8000_0000_0000_0000 <= items[i].price * items[i].quantity <= 0x7FFF_FFFF_FFFF_FFFF)
  {
    if |items| == 0 || |items| > 100 {
      return false;
    }
    hide TextOk, Plain;
    for i := 0 to |items|
      invariant forall j | 0 <= j < i :: ItemOk(items[j], prices)
    {
      var item := items[i];
      PlainItem(item);
      var named := ValidateText(item.name, 200, true);
      if !named {
        return false;
      }
      var noted := ValidateText(item.notes, 500, false);
      if !noted {
        return false;
      }
      if item.quantity < 1 || item.quantity > 999 {
        return false;
      }
      if prices {
        GuardIsExact(item.price, item.quantity);
        if Overflows(item.price, item.quantity) {
          return false;
        }
      }
    }
    forall i | 0 <= i < |items|
      ensures Plain(items[i].name) && 1 <= |items[i].name| <= 200 && Plain(items[i].notes) && |items[i].notes| <= 500
    {
      assert ItemOk(items[i], prices);
      PlainItem(items[i]);
    }
    return true;
  }

  // ---- printing ----

  predicate IsDigit(c: char) {
    '0' <= c <= '9'
  }

  function DigitValue(c: char): nat
    requires IsDigit(c)
  {
    c as int - '0' as int
  }

  function Digit(n: nat): (c: char)
    requires n < 10
    ensures IsDigit(c) && DigitValue(c) == n
  {
    ('0' as int + n) as char
  }

  // %d for a number that is not negative.
  function Decimal(n: nat): (s: string)
    ensures |s| >= 1 && forall i | 0 <= i < |s| :: IsDigit(s[i])
  {
    if n < 10 then [Digit(n)] else Decimal(n / 10) + [Digit(n % 10)]
  }

  function Euro(): string { "\U{20AC}" }

  // uint64(-(cents + 1)) + 1 for negative cents: no intermediate value leaves its type.
  function Magnitude(cents: int): (m: nat)
    requires IsInt64(cents)
    ensures cents < 0 ==> IsInt64(-(cents + 1)) && m == -cents
    ensures cents >= 0 ==> m == cents
    ensures m < 0x1_0000_0000_0000_0000
  {
    if cents < 0 then -(cents + 1) + 1 else cents
  }

  // fmt.Sprintf("%s%d.%02d %s", ...)
  function Money(cents: int, currency: string): string
    requires IsInt64(cents)
  {
    var m := Magnitude(cents);
    var rest := ['.', Digit(m % 100 / 10), Digit(m % 10), ' '] + (if currency == "" then Euro() else currency);
    if cents < 0 then "-" + (Decimal(m / 100) + rest) else Decimal(m / 100) + rest
  }

  // ---- reading back ----

  function DigitsUpTo(s: string): (n: nat)
    ensures n <= |s| && (forall i | 0 <= i < n :: IsDigit(s[i])) && (n < |s| ==> !IsDigit(s[n]))
  {
    if s == "" || !IsDigit(s[0]) then 0 else 1 + DigitsUpTo(s[1..])
  }

  function Value(s: string): nat
    requires forall i | 0 <= i < |s| :: IsDigit(s[i])
  {
    if s == "" then 0 else 10 * Value(s[..|s| - 1]) + DigitValue(s[|s| - 1])
  }

  datatype Amount = Amount(cents: int, currency: string)

  // Reads euros, a point, two digits, a space and the currency.
  function ReadUnsigned(s: string): Option<Amount> {
    var n := DigitsUpTo(s);
    if n == 0 || |s| < n + 4 || s[n] != '.' || !IsDigit(s[n + 1]) || !IsDigit(s[n + 2]) || s[n + 3] != ' '
    then None
    else Some(Amount(100 * Value(s[..n]) + 10 * DigitValue(s[n + 1]) + DigitValue(s[n + 2]), s[n + 4..]))
  }

  // The same after an optional minus sign.
  function Read(s: string): Option<Amount> {
    if s != "" && s[0] == '-'
    then match ReadUnsigned(s[1..]) case None => None case Some(a) => Some(a.(cents := -a.cents))
    else ReadUnsigned(s)
  }

  lemma {:induction false} DecimalValue(n: nat)
    ensures Value(Decimal(n)) == n
  {
    if n < 10 {
      assert Decimal(n)[..0] == "";
    } else {
      DecimalValue(n / 10);
      var s := Decimal(n);
      assert s[..|s| - 1] == Decimal(n / 10);
    }
  }

  lemma {:induction false} DigitsOf(a: string, b: string)
    requires (forall i | 0 <= i < |a| :: IsDigit(a[i])) && b != "" && !IsDigit(b[0])
    ensures DigitsUpTo(a + b) == |a|
  {
    if a == "" {
      assert a + b == b;
    } else {
      DigitsOf(a[1..], b);
      assert (a + b)[1..] == a[1..] + b;
    }
  }

  lemma Pieces(euros: string, tail: string)
    requires |tail| >= 4 && euros != ""
    ensures var s := euros + tail; var n := |euros|;
            && s[0] == euros[0] && s[..n] == euros && s[n + 4..] == tail[4..]
            && s[n] == tail[0] && s[n + 1] == tail[1] && s[n + 2] == tail[2] && s[n + 3] == tail[3]
  {
  }

  lemma ReadsUnsigned(euros: string, tens: char, ones: char, name: string)
    requires euros != "" && (forall i | 0 <= i < |euros| :: IsDigit(euros[i])) && IsDigit(tens) && IsDigit(ones)
    ensures var s := euros + (['.', tens, ones, ' '] + name);
            && s[0] != '-'
            && ReadUnsigned(s) == Some(Amount(100 * Value(euros) + 10 * DigitValue(tens) + DigitValue(ones), name))
  {
    hide DigitsUpTo, Value, DigitValue;
    var tail := ['.', tens, ones, ' '] + name;
    assert tail[4..] == name;
    DigitsOf(euros, tail);
    Pieces(euros, tail);
  }

  lemma ReadsSigned(s: string)
    requires s != "" && s[0] != '-' && ReadUnsigned(s).Some?
    ensures Read(s) == ReadUnsigned(s)
    ensures Read("-" + s) == Some(ReadUnsigned(s).value.(cents := -ReadUnsigned(s).value.cents))
  {
    hide ReadUnsigned;
    assert ("-" + s)[1..] == s;
  }

  // What is printed for any number of cents, the least one included, reads back as the same
  // cents in the same currency, the euro standing for none given.
  lemma MoneyReadsBack(cents: int, currency: string)
    requires IsInt64(cents)
    ensures Read(Money(cents, currency)) == Some(Amount(cents, if currency == "" then Euro() else currency))
  {
    hide ReadUnsigned, Read, Decimal, Value, Digit, DigitValue;
    var m := Magnitude(cents);
    var name := if currency == "" then Euro() else currency;
    var euros, tens, ones := Decimal(m / 100), Digit(m % 100 / 10), Digit(m % 10);
    ReadsUnsigned(euros, tens, ones, name);
    DecimalValue(m / 100);
    ReadsSigned(euros + (['.', tens, ones, ' '] + name));
    assert m == 100 * (m / 100) + 10 * (m % 100 / 10) + m % 10;
  }

  // Some amounts as they are printed.
  lemma SomeAmounts()
    ensures Money(0, "") == "0.00 \U{20AC}" && Money(-5, "CHF") == "-0.05 CHF" && Money(1250, "") == "12.50 \U{20AC}"
  {
    assert Decimal(12) == "12";
  }
}
