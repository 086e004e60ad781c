/** `ResourceMetrics`: the memory bar of the latest usage sample, coloured by
    how full the memory is. Without a latest sample the component renders
    nothing. */
module ResourceMetrics {
  import opened Wrappers
  import opened Metrics

  datatype BarColor = Danger | Warning | Success

  /** The CSS colour `getMemoryBarColor` returns. */
  function ColorValue(c: BarColor): string {
    match c
    case Danger => "var(--color-danger)"
    case Warning => "var(--color-warning)"
    case Success => "var(--color-success)"
  }

  /** `getMemoryBarColor`: above 80 danger, above 60 warning, else success. */
  function MemoryBarColor(memoryPercent: real): (c: BarColor)
    ensures c == Danger <==> memoryPercent > 80.0
    ensures c == Warning <==> 60.0 < memoryPercent <= 80.0
    ensures c == Success <==> memoryPercent <= 60.0
  {
    if memoryPercent > 80.0 then Danger
    else if memoryPercent > 60.0 then Warning
    else Success
  }

  function Severity(c: BarColor): nat {
    match c
    case Success => 0
    case Warning => 1
    case Danger => 2
  }

  /** A fuller memory never gets a milder colour. */
  lemma SeverityMonotone(p: real, q: real)
    requires p <= q
    ensures Severity(MemoryBarColor(p)) <= Severity(MemoryBarColor(q))
  {
  }

  /** The bar as styled: its width in percent and its background colour. */
  datatype MemoryBar = MemoryBar(widthPercent: real, color: string)

  /** The component for `latestUsage`: nothing without a sample, otherwise a
      bar as wide as the memory percentage in the matching colour. */
  function Render(latestUsage: Option<Usage>): (r: Option<MemoryBar>)
    ensures r.None? <==> latestUsage.None?
    ensures r.Some? ==> r.value.widthPercent == latestUsage.value.memoryPercent
    ensures r.Some? ==> r.value.color == ColorValue(MemoryBarColor(latestUsage.value.memoryPercent))
  {
    match latestUsage
    case None => None
    case Some(u) => Some(MemoryBar(u.memoryPercent, ColorValue(MemoryBarColor(u.memoryPercent))))
  }
}
