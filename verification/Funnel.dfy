/** Funnel attribution between a comparison window and the current window, over exact reals. */
module Funnel {
  import opened Wrappers

  datatype Window = Window(impressions: nat, clicks: nat, orders: nat)

  datatype Comparison = Comparison(
    clickThrough: (Option<real>, Option<real>), conversion: (Option<real>, Option<real>),
    orderChange: int, orderChangeRate: Option<real>,
    traffic: Option<real>, conversionEffect: Option<real>)

  function Rate(numerator: int, denominator: int): Option<real> {
    if denominator == 0 then None else Some(numerator as real / denominator as real)
  }

  function CompareFunnel(before: Window, after: Window): Comparison {
    var c0, c1 := Rate(before.orders, before.clicks), Rate(after.orders, after.clicks);
    var (traffic, conversion) :=
      if c0.Some? && c1.Some? then
        (Some((after.clicks - before.clicks) as real * (c0.value + c1.value) / 2.0),
         Some((c1.value - c0.value) * (before.clicks + after.clicks) as real / 2.0))
      else (None, None);
    Comparison((Rate(before.clicks, before.impressions), Rate(after.clicks, after.impressions)), (c0, c1),
               after.orders - before.orders, Rate(after.orders - before.orders, before.orders),
               traffic, conversion)
  }

  /** Orders a window would have with the clicks and the conversion rate given. */
  function Orders(clicks: nat, rate: real): real { clicks as real * rate }

  predicate IsRatio(rate: Option<real>, numerator: int, denominator: int) {
    && (rate.Some? <==> denominator != 0)
    && (rate.Some? ==> rate.value * denominator as real == numerator as real)
  }

  /** Each rate is the ratio of its own window, absent exactly when its denominator is zero. */
  lemma RatesAreRatios(before: Window, after: Window)
    ensures var f := CompareFunnel(before, after);
      && IsRatio(f.clickThrough.0, before.clicks, before.impressions) && IsRatio(f.clickThrough.1, after.clicks, after.impressions)
      && IsRatio(f.conversion.0, before.orders, before.clicks) && IsRatio(f.conversion.1, after.orders, after.clicks)
      && IsRatio(f.orderChangeRate, f.orderChange, before.orders) && f.orderChange == after.orders - before.orders
  {
  }

  /** The two contributions are present together, exactly when both windows have clicks, and they add up to
    * the change in orders with nothing left over. */
  lemma FunnelIdentity(before: Window, after: Window)
    ensures var f := CompareFunnel(before, after);
      && (f.traffic.Some? <==> before.clicks != 0 && after.clicks != 0)
      && (f.conversionEffect.Some? <==> f.traffic.Some?)
      && (f.traffic.Some? ==> f.traffic.value + f.conversionEffect.value == f.orderChange as real)
  {
  }

  /** Each contribution is what that factor alone changes, averaged over the two orders in which the two
    * factors can be changed one after the other. */
  lemma ContributionIsAverageMarginalEffect(before: Window, after: Window)
    requires before.clicks != 0 && after.clicks != 0
    ensures var f := CompareFunnel(before, after);
      var r0, r1 := f.conversion.0.value, f.conversion.1.value;
      var k0, k1 := before.clicks, after.clicks;
      && f.traffic.value == ((Orders(k1, r0) - Orders(k0, r0)) + (Orders(k1, r1) - Orders(k0, r1))) / 2.0
      && f.conversionEffect.value == ((Orders(k0, r1) - Orders(k0, r0)) + (Orders(k1, r1) - Orders(k1, r0))) / 2.0
  {
  }

  /** Swapping the windows negates the order change and each contribution. */
  lemma SwapNegates(before: Window, after: Window)
    ensures var f, g := CompareFunnel(before, after), CompareFunnel(after, before);
      && g.orderChange == -f.orderChange
      && (g.traffic.Some? <==> f.traffic.Some?)
      && (f.traffic.Some? ==> g.traffic.value == -f.traffic.value && g.conversionEffect.value == -f.conversionEffect.value)
  {
  }
}
