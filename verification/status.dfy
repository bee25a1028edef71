/** The status vocabulary of the simulator and the strings `getStatus` reports. */
module SimStatus {
  import opened Wrappers

  /** The most recent transition of the simulator. */
  datatype Status =
    | NotSetUp
    | Started
    | HitTop
    | HitBottom
    | HitLeft
    | HitRight
    | Stationary

  /** Every string `getStatus` returns starts with this. */
  const Prefix: string := "Status: "

  /** The text stored in the simulator's status field. */
  function Message(st: Status): string {
    match st
    case NotSetUp => "Ball not set up"
    case Started => "Simulation started"
    case HitTop => "Ball hit top edge"
    case HitBottom => "Ball hit bottom edge"
    case HitLeft => "Ball hit left edge"
    case HitRight => "Ball hit right edge"
    case Stationary => "Ball is stationary"
  }

  /** Reads a stored status text back; `None` for any other string. */
  function MessageStatus(m: string): Option<Status> {
    if m == "Ball not set up" then Some(NotSetUp)
    else if m == "Simulation started" then Some(Started)
    else if m == "Ball hit top edge" then Some(HitTop)
    else if m == "Ball hit bottom edge" then Some(HitBottom)
    else if m == "Ball hit left edge" then Some(HitLeft)
    else if m == "Ball hit right edge" then Some(HitRight)
    else if m == "Ball is stationary" then Some(Stationary)
    else None
  }

  /** Reads a string of the form `getStatus` produces back into a status. */
  function Parse(s: string): Option<Status> {
    if |Prefix| <= |s| && s[..|Prefix|] == Prefix then MessageStatus(s[|Prefix|..]) else None
  }

  /** The string `getStatus` reports: the prefix, then the stored text. It
      always starts with the prefix, and it can be read back into the status
      it came from, so no two statuses report the same string. */
  function Display(st: Status): (s: string)
    ensures |Prefix| <= |s| && s[..|Prefix|] == Prefix
    ensures Parse(s) == Some(st)
  {
    var s := Prefix + Message(st);
    assert s[..|Prefix|] == Prefix;
    assert s[|Prefix|..] == Message(st);
    s
  }

  /** Parsing accepts exactly the strings `Display` produces. */
  lemma ParseOnlyDisplayed(s: string, st: Status)
    requires Parse(s) == Some(st)
    ensures s == Display(st)
  {
    var m := s[|Prefix|..];
    MessageStatusOnlyMessages(m, st);
    assert s == s[..|Prefix|] + m;
  }

  /** Only the stored texts read back, each as the status it belongs to. */
  lemma MessageStatusOnlyMessages(m: string, st: Status)
    requires MessageStatus(m) == Some(st)
    ensures m == Message(st)
  {}

  /** Two statuses never report the same string. */
  lemma DisplayInjective(a: Status, b: Status)
    requires Display(a) == Display(b)
    ensures a == b
  {
    assert Parse(Display(a)) == Some(a);
  }
}
