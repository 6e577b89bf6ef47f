/** The Active Rule Monitor panel of the terminal (App.jsx, Terminal): four
    status labels derived from the selected symbol's count and two local
    flags, and the lock button that toggles one of them. */
module RuleMonitor {
  import opened Orders
  import Positions

  datatype RuleStatus = Active | Locked | Monitoring | Following | Idle | Watching | Off

  /** One panel line: title, status and the rule it refers to. */
  datatype RuleLine = RuleLine(title: string, status: RuleStatus, rule: string)

  /** The panel's local state: the profit-lock toggle and the last exit
      price in cents (unset at start, and no code path ever sets it). */
  datatype MonitorFlags = MonitorFlags(isLocked: bool, lastExitPrice: Option<int>)

  /** JavaScript truthiness of the exit price: unset and 0 are both false. */
  predicate Truthy(price: Option<int>)
  {
    price.Some? && price.value != 0
  }

  /** `positions[selected.symbol] || 0`. */
  function CurrentPosition(positions: map<string, int>, symbol: string): int
  {
    Lookup(positions, symbol)
  }

  /** The four lines, in panel order. */
  function RuleLines(flags: MonitorFlags, currentPos: int): (lines: seq<RuleLine>)
    ensures |lines| == 4
    // which rule sits at which position of the panel
    ensures && lines[0].title == "Break-even Protection" && lines[0].rule == "Rule 2"
            && lines[1].title == "10-pt Profit Lock" && lines[1].rule == "Rule 4"
            && lines[2].title == "Trend Continuation" && lines[2].rule == "Rule 1"
            && lines[3].title == "Re-entry Detection" && lines[3].rule == "Rule 3/5"
    ensures lines[0].status == Active
    ensures lines[1].status == Locked <==> flags.isLocked
    ensures lines[1].status == Monitoring <==> !flags.isLocked
    ensures lines[2].status == Following <==> currentPos != 0
    ensures lines[2].status == Idle <==> currentPos == 0
    ensures lines[3].status == Watching <==> Truthy(flags.lastExitPrice)
    ensures lines[3].status == Off <==> !Truthy(flags.lastExitPrice)
  {
    [ RuleLine("Break-even Protection", Active, "Rule 2"),
      RuleLine("10-pt Profit Lock", if flags.isLocked then Locked else Monitoring, "Rule 4"),
      RuleLine("Trend Continuation", if currentPos != 0 then Following else Idle, "Rule 1"),
      RuleLine("Re-entry Detection", if Truthy(flags.lastExitPrice) then Watching else Off, "Rule 3/5") ]
  }

  /** The lock button: `setIsLocked(!isLocked)`. */
  function ToggleLock(flags: MonitorFlags): (toggled: MonitorFlags)
    ensures toggled.isLocked != flags.isLocked
    ensures toggled.lastExitPrice == flags.lastExitPrice
  {
    flags.(isLocked := !flags.isLocked)
  }

  /** Pressing the lock button twice restores the panel state. */
  lemma ToggleTwiceRestores(flags: MonitorFlags)
    ensures ToggleLock(ToggleLock(flags)) == flags
  {
  }

  /** Toggling the lock changes the Profit Lock line and no other. */
  lemma ToggleChangesOnlyProfitLock(flags: MonitorFlags, currentPos: int)
    ensures var before := RuleLines(flags, currentPos);
            var after := RuleLines(ToggleLock(flags), currentPos);
            && after[0] == before[0] && after[2] == before[2] && after[3] == before[3]
            && after[1].status != before[1].status
  {
  }

  /** Trend Continuation shows FOLLOWING exactly when the selected symbol
      has a non-zero count in the snapshot the panel was given. */
  lemma TrendFollowsSnapshot(flags: MonitorFlags, docs: seq<Order>, symbol: string)
    ensures RuleLines(flags, CurrentPosition(Positions.Positions(docs), symbol))[2].status == Following
            <==> NetCount(docs, symbol) != 0
  {
    Positions.PositionsAreNetCounts(docs);
  }
}
