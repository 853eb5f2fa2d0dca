/** The three browser engines a run is executed in. */
module Browsers {

  datatype BrowserType = Chromium | Firefox | Webkit

  /** The order in which the runner brings the engines up. */
  const LaunchOrder: seq<BrowserType> := [Chromium, Firefox, Webkit]

  /** `Display for BrowserType`. */
  function BrowserTypeText(b: BrowserType): (s: string)
    ensures |s| > 0
  {
    match b
    case Chromium => "Chromium"
    case Firefox => "Firefox"
    case Webkit => "Webkit"
  }

  /** The names result lines and failure lines show for the three engines. */
  lemma BrowserNames()
    ensures BrowserTypeText(Chromium) == "Chromium"
    ensures BrowserTypeText(Firefox) == "Firefox"
    ensures BrowserTypeText(Webkit) == "Webkit"
  {
  }

  /** Every engine is brought up exactly once: the launch order lists each kind once. */
  lemma LaunchOrderCoversEachKindOnce(b: BrowserType)
    ensures multiset(LaunchOrder)[b] == 1
  {
  }

  /** Report lines name the engine unambiguously. */
  lemma BrowserTypeTextInjective(a: BrowserType, b: BrowserType)
    requires BrowserTypeText(a) == BrowserTypeText(b)
    ensures a == b
  {
  }
}
