/** The priority badge of the task inbox (`getPriorityLabel` and
    `getPriorityColor`): four bands cut at 75, 50 and 25. A JavaScript
    number is modelled as a real. */
module TaskInbox {

  /** The bands, lowest first. */
  datatype Band = Low | Medium | High | Critical

  /** The band a priority falls in. */
  function BandOf(priority: real): Band {
    if priority >= 75.0 then Critical
    else if priority >= 50.0 then High
    else if priority >= 25.0 then Medium
    else Low
  }

  /** The bands in order. */
  function Rank(b: Band): nat {
    match b
    case Low => 0
    case Medium => 1
    case High => 2
    case Critical => 3
  }

  /** `getPriorityLabel(priority)`. */
  function PriorityLabel(priority: real): (r: string)
    ensures priority >= 75.0 ==> r == "Critical"
    ensures 50.0 <= priority < 75.0 ==> r == "High"
    ensures 25.0 <= priority < 50.0 ==> r == "Medium"
    ensures priority < 25.0 ==> r == "Low"
  {
    if priority >= 75.0 then "Critical"
    else if priority >= 50.0 then "High"
    else if priority >= 25.0 then "Medium"
    else "Low"
  }

  /** `getPriorityColor(priority)`. */
  function PriorityColor(priority: real): (r: string)
    ensures priority >= 75.0 ==> r == "#d32f2f"
    ensures 50.0 <= priority < 75.0 ==> r == "#f57c00"
    ensures 25.0 <= priority < 50.0 ==> r == "#fbc02d"
    ensures priority < 25.0 ==> r == "#4caf50"
  {
    if priority >= 75.0 then "#d32f2f"
    else if priority >= 50.0 then "#f57c00"
    else if priority >= 25.0 then "#fbc02d"
    else "#4caf50"
  }

  /** The label and the colour of each band. */
  function BandLabel(b: Band): string {
    match b
    case Low => "Low"
    case Medium => "Medium"
    case High => "High"
    case Critical => "Critical"
  }

  function BandColor(b: Band): string {
    match b
    case Low => "#4caf50"
    case Medium => "#fbc02d"
    case High => "#f57c00"
    case Critical => "#d32f2f"
  }

  /** Label and colour come from the same band, so they always agree, and
      two priorities with the same label get the same colour. */
  lemma LabelAndColorAgree(p: real, q: real)
    ensures PriorityLabel(p) == BandLabel(BandOf(p))
    ensures PriorityColor(p) == BandColor(BandOf(p))
    ensures PriorityLabel(p) == PriorityLabel(q) <==> PriorityColor(p) == PriorityColor(q)
  {
  }

  /** A higher priority never gets a lower band. */
  lemma BandMonotone(p: real, q: real)
    requires p <= q
    ensures Rank(BandOf(p)) <= Rank(BandOf(q))
  {
  }
}
