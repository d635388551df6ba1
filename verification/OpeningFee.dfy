/** bLIP-52's opening fee and the choice from the LSP's menu. Amounts are bigints, in millisatoshi. */
module OpeningFee {
  import opened Common

  const U64_MAX: int := 0xffff_ffff_ffff_ffff

  datatype Params = Params(minFeeMsat: int, proportional: int, minPaymentSizeMsat: int, maxPaymentSizeMsat: int)

  datatype Overflow = ProductExceedsU64 | SumExceedsU64

  /** Bigint division truncates toward zero. */
  function Quotient(a: int, b: int): int
    requires b > 0
  {
    if a >= 0 then a / b else -((-a) / b)
  }

  /** `calculateOpeningFee`; the errors are its two throws. */
  function CalculateOpeningFee(size: int, p: Params): Result<int, Overflow> {
    var product := size * p.proportional;
    if product > U64_MAX then Err(ProductExceedsU64)
    else
      var sum := product + 999_999;
      if sum > U64_MAX then Err(SumExceedsU64)
      else
        var fee := Quotient(sum, 1_000_000);
        Ok(if fee < p.minFeeMsat then p.minFeeMsat else fee)
  }

  /** c is n / 1000000 rounded up. */
  predicate IsCeiling(c: int, n: int) {
    (c - 1) * 1_000_000 < n <= c * 1_000_000
  }

  /**
   * Section "Computing the opening_fee" of bLIP-52: the larger of the minimum and the proportional part
   * rounded up, and an error exactly when the u64 computation of the numerator would overflow.
   */
  lemma FeeIsSpecified(size: nat, p: Params, c: int)
    requires p.proportional >= 0 && IsCeiling(c, size * p.proportional)
    ensures CalculateOpeningFee(size, p).Ok? <==> size * p.proportional + 999_999 <= 0xffff_ffff_ffff_ffff
    ensures CalculateOpeningFee(size, p).Ok? ==> CalculateOpeningFee(size, p).value == Max(p.minFeeMsat, c)
  {
    ProductNonNegative(size, p.proportional);
    CeilingOf(size * p.proportional, c);
  }

  lemma ProductNonNegative(a: nat, b: nat)
    ensures a * b >= 0
  {
  }

  lemma CeilingOf(n: nat, c: int)
    requires IsCeiling(c, n)
    ensures (n + 999_999) / 1_000_000 == c
  {
  }

  lemma MulMonotone(a: nat, b: nat, c: nat, d: nat)
    requires a <= b && c <= d
    ensures a * c <= b * d
  {
    assert a * c <= b * c;
    assert b * c <= b * d;
  }

  /** A larger payment, a larger minimum or a larger rate never makes the fee smaller or the overflow go away. */
  lemma FeeMonotone(small: nat, large: nat, p: Params, q: Params)
    requires small <= large && 0 <= p.proportional <= q.proportional && p.minFeeMsat <= q.minFeeMsat
    ensures CalculateOpeningFee(large, q).Ok? ==>
      && CalculateOpeningFee(small, p).Ok?
      && CalculateOpeningFee(small, p).value <= CalculateOpeningFee(large, q).value
  {
    MulMonotone(small, large, p.proportional, q.proportional);
    ProductNonNegative(small, p.proportional);
  }

  // ---------- The menu ----------

  /** Payment size within the entry's range. */
  predicate InSize(size: int, p: Params) {
    p.minPaymentSizeMsat <= size <= p.maxPaymentSizeMsat
  }

  /** The entry can be used: the size is in range and the fee leaves something to receive. */
  predicate Usable(size: int, p: Params) {
    InSize(size, p) && CalculateOpeningFee(size, p).Ok? && CalculateOpeningFee(size, p).value < size
  }

  /** The entry is skipped without a throw. */
  predicate Skipped(size: int, p: Params) {
    !InSize(size, p) || (CalculateOpeningFee(size, p).Ok? && CalculateOpeningFee(size, p).value >= size)
  }

  /** The scan stops at the first entry that is not skipped: it is returned, or its computation throws. */
  function Select(menu: seq<Params>, size: int): Result<Option<nat>, Overflow> {
    SelectFrom(menu, size, 0)
  }

  function SelectFrom(menu: seq<Params>, size: int, i: nat): Result<Option<nat>, Overflow>
    requires i <= |menu|
    decreases |menu| - i
  {
    if i == |menu| then Ok(None)
    else if Usable(size, menu[i]) then Ok(Some(i))
    else if Skipped(size, menu[i]) then SelectFrom(menu, size, i + 1)
    else Err(CalculateOpeningFee(size, menu[i]).error)
  }

  /** `selectCheapestParams` */
  method SelectCheapestParams(menu: seq<Params>, size: int) returns (r: Result<Option<Params>, Overflow>)
    ensures r == match Select(menu, size)
                 case Err(e) => Err(e)
                 case Ok(None) => Ok(None)
                 case Ok(Some(i)) => if i < |menu| then Ok(Some(menu[i])) else Ok(None)
    ensures r.Ok? && r.value.Some? ==>
      var p := r.value.value;
      p in menu && p.minPaymentSizeMsat <= size <= p.maxPaymentSizeMsat
      && CalculateOpeningFee(size, p).Ok? && CalculateOpeningFee(size, p).value < size
    ensures r == Ok(None) ==> forall p :: p in menu && p.minPaymentSizeMsat <= size <= p.maxPaymentSizeMsat ==>
      CalculateOpeningFee(size, p).Ok? && CalculateOpeningFee(size, p).value >= size
  {
    var i := 0;
    while i < |menu|
      invariant 0 <= i <= |menu|
      invariant Select(menu, size) == SelectFrom(menu, size, i)
      invariant forall p :: p in menu[..i] && p.minPaymentSizeMsat <= size <= p.maxPaymentSizeMsat ==>
        CalculateOpeningFee(size, p).Ok? && CalculateOpeningFee(size, p).value >= size
    {
      var params := menu[i];
      assert menu[..i + 1] == menu[..i] + [params];
      if size < params.minPaymentSizeMsat {
        i := i + 1;
        continue;
      }
      if size > params.maxPaymentSizeMsat {
        i := i + 1;
        continue;
      }
      var fee := CalculateOpeningFee(size, params);
      if fee.Err? {
        return Err(fee.error);
      }
      if fee.value >= size {
        i := i + 1;
        continue;
      }
      return Ok(Some(params));
    }
    assert menu[..i] == menu;
    return Ok(None);
  }

  lemma {:induction false} SelectFirst(menu: seq<Params>, size: int, i: nat)
    requires i <= |menu|
    ensures var r := SelectFrom(menu, size, i);
      match r
      case Ok(Some(k)) => i <= k < |menu| && Usable(size, menu[k]) && forall j :: i <= j < k ==> Skipped(size, menu[j])
      case Ok(None) => forall j :: i <= j < |menu| ==> Skipped(size, menu[j])
      case Err(_) => exists k :: i <= k < |menu| && InSize(size, menu[k]) && CalculateOpeningFee(size, menu[k]).Err?
                       && forall j :: i <= j < k ==> Skipped(size, menu[j])
    decreases |menu| - i
  {
    if i < |menu| && !Usable(size, menu[i]) {
      if Skipped(size, menu[i]) { SelectFirst(menu, size, i + 1); }
    }
  }

  /** Ordered by increasing cost: neither the minimum nor the rate ever decreases. */
  predicate Ordered(menu: seq<Params>) {
    && (forall i :: 0 <= i < |menu| ==> menu[i].proportional >= 0)
    && forall i, j :: 0 <= i <= j < |menu| ==>
         menu[i].minFeeMsat <= menu[j].minFeeMsat && menu[i].proportional <= menu[j].proportional
  }

  /**
   * On an ordered menu the scan finds an entry exactly when a usable one exists, and it is the cheapest
   * usable one; the payee receives a positive rest, which with the fee makes up the invoice amount.
   */
  lemma SelectsCheapest(menu: seq<Params>, size: nat)
    requires Ordered(menu)
    ensures var r := Select(menu, size);
      && ((r.Ok? && r.value.Some?) <==> exists j :: 0 <= j < |menu| && Usable(size, menu[j]))
      && (r.Ok? && r.value.Some? ==>
            var k := r.value.value;
            && k < |menu| && Usable(size, menu[k])
            && menu[k].minPaymentSizeMsat <= size <= menu[k].maxPaymentSizeMsat
            && var fee := CalculateOpeningFee(size, menu[k]).value;
            && 0 < size - fee
            && forall j :: 0 <= j < |menu| && Usable(size, menu[j]) ==> fee <= CalculateOpeningFee(size, menu[j]).value)
  {
    SelectFirst(menu, size, 0);
    var r := Select(menu, size);
    if r.Ok? && r.value.Some? {
      var k := r.value.value;
      forall j | 0 <= j < |menu| && Usable(size, menu[j])
        ensures CalculateOpeningFee(size, menu[k]).value <= CalculateOpeningFee(size, menu[j]).value
      {
        if j >= k { FeeMonotone(size, size, menu[k], menu[j]); }
      }
    } else {
      forall j | 0 <= j < |menu| ensures !Usable(size, menu[j]) {
        if r.Err? {
          var k :| 0 <= k < |menu| && InSize(size, menu[k]) && CalculateOpeningFee(size, menu[k]).Err?
            && forall i :: 0 <= i < k ==> Skipped(size, menu[i]);
          if j >= k { FeeMonotone(size, size, menu[k], menu[j]); } else { assert Skipped(size, menu[j]); }
        } else {
          assert Skipped(size, menu[j]);
        }
      }
    }
  }

  /** The scan finds an entry exactly when a usable one exists, and none usable has a lower fee. */
  ghost predicate RightChoice(menu: seq<Params>, size: nat) {
    var r := Select(menu, size);
    if r.Ok? && r.value.Some? then r.value.value < |menu| && Usable(size, menu[r.value.value]) && Best(menu, size, r.value.value)
    else NoneUsable(menu, size)
  }

  ghost predicate NoneUsable(menu: seq<Params>, size: nat) {
    forall j: nat :: j < |menu| ==> !Usable(size, menu[j])
  }

  /** No usable entry is dearer to choose than i. */
  ghost predicate Best(menu: seq<Params>, size: nat, i: nat)
    requires i < |menu|
  {
    forall j: nat :: j < |menu| && Usable(size, menu[j]) ==> NoDearer(size, menu[i], menu[j])
  }

  /** p's fee can be computed and is at most q's. */
  predicate NoDearer(size: int, p: Params, q: Params) {
    && CalculateOpeningFee(size, p).Ok? && CalculateOpeningFee(size, q).Ok?
    && CalculateOpeningFee(size, p).value <= CalculateOpeningFee(size, q).value
  }

  /** Entry i is the first that the scan does not skip. */
  ghost predicate StopsAt(menu: seq<Params>, size: nat, i: nat) {
    i < |menu| && !Skipped(size, menu[i]) && forall h :: 0 <= h < i ==> Skipped(size, menu[h])
  }

  lemma StopsOnce(menu: seq<Params>, size: nat, i: nat, k: nat)
    requires StopsAt(menu, size, i) && StopsAt(menu, size, k)
    ensures i == k
  {
  }

  /**
   * On any menu, ordered or not: the choice is right if and only if the entry at which the scan stops
   * neither overflows nor costs more than a usable one, should there be any.
   */
  lemma RightChoiceIff(menu: seq<Params>, size: nat)
    ensures RightChoice(menu, size) <==> forall i: nat :: StopsAt(menu, size, i) ==> Best(menu, size, i)
  {
    SelectFirst(menu, size, 0);
    var r := Select(menu, size);
    if r.Ok? && r.value.None? {
      assert NoneUsable(menu, size);
    } else {
      var k := StopOf(menu, size);
      forall i: nat | StopsAt(menu, size, i) ensures i == k { StopsOnce(menu, size, i, k); }
    }
  }

  /** Where the scan stops: at its choice, or at the overflow it throws. */
  lemma StopOf(menu: seq<Params>, size: nat) returns (k: nat)
    requires Select(menu, size) != Ok(None)
    ensures StopsAt(menu, size, k)
    ensures Select(menu, size).Ok? ==> Select(menu, size).value == Some(k) && Usable(size, menu[k])
    ensures Select(menu, size).Err? ==> CalculateOpeningFee(size, menu[k]).Err? && (NoneUsable(menu, size) <==> Best(menu, size, k))
  {
    SelectFirst(menu, size, 0);
    var r := Select(menu, size);
    if r.Ok? {
      k := r.value.value;
    } else {
      k :| 0 <= k < |menu| && InSize(size, menu[k]) && CalculateOpeningFee(size, menu[k]).Err?
        && forall j :: 0 <= j < k ==> Skipped(size, menu[j]);
    }
  }

  /** Without the order the choice can be dearer than another entry, and one entry can hide the rest by throwing. */
  lemma UnorderedMenus()
    ensures var dear, cheap := Params(500, 0, 0, 1_000), Params(100, 0, 0, 1_000);
      Select([dear, cheap], 1_000) == Ok(Some(0)) && Usable(1_000, cheap)
    ensures var huge, cheap := Params(0, U64_MAX, 0, 1_000), Params(100, 0, 0, 1_000);
      Select([huge, cheap], 1_000).Err? && Usable(1_000, cheap)
  {
  }
}
