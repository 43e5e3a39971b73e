/** The small text helpers that `src/components/CampaignDetails.tsx` and
    `src/components/CampaignsList.tsx` both define (the two copies of
    `getStatusBadgeColor` and `getStatusLabel` are identical), the string
    operations they rely on, and the display values the components build. */
module Presentation {
  import opened Outcomes

  // ---------------------------------------------------------------------
  // Display values
  // ---------------------------------------------------------------------

  /** What a cell, tile or entry shows. Number-to-text formatting is kept
      abstract: a value records the number and the formatting call applied
      to it, not the characters it produces. */
  datatype Shown =
    | Text(text: string)                                   // a string shown as it is
    | Number(n: int)                                       // a number rendered by React as is
    | Localized(prefix: string, n: int)                    // prefix + n.toLocaleString()
    | Fixed(prefix: string, x: real, digits: nat, suffix: string)  // prefix + x.toFixed(digits) + suffix
    | Badge(cls: string, caption: string)                  // a badge with its CSS class and text
    | LongDate(raw: string)                                // the date string as formatDate shows it

  /** An entry of a fixed list the components render: a label and its value. */
  datatype Labelled = Labelled(title: string, value: Shown)

  function Titles(items: seq<Labelled>): (ts: seq<string>)
    ensures |ts| == |items|
    ensures forall i :: 0 <= i < |items| ==> ts[i] == items[i].title
  {
    seq(|items|, i requires 0 <= i < |items| => items[i].title)
  }

  /** `x?.toFixed(2) || '0.00'` placed between `prefix` and `suffix`: an
      absent rate shows the literal "0.00". */
  function RateOrZero(prefix: string, x: Option<real>, suffix: string): (v: Shown)
    ensures x.None? ==> v == Text(prefix + "0.00" + suffix)
    ensures x.Some? ==> v == Fixed(prefix, x.value, 2, suffix)
  {
    match x
    case Some(r) => Fixed(prefix, r, 2, suffix)
    case None => Text(prefix + "0.00" + suffix)
  }

  // ---------------------------------------------------------------------
  // Status badge
  // ---------------------------------------------------------------------

  const BadgeClasses: set<string> := {"badge-success", "badge-warning", "badge-info", "badge-danger"}

  /** `getStatusBadgeColor`: a total mapping from any status string to one of
      four badge classes. Each of active, paused and draft has a class of its
      own; completed and every unknown string share "badge-info". */
  function BadgeColor(status: string): (cls: string)
    ensures cls in BadgeClasses
    ensures cls == "badge-success" <==> status == "active"
    ensures cls == "badge-warning" <==> status == "paused"
    ensures cls == "badge-danger" <==> status == "draft"
    ensures cls == "badge-info" <==> status != "active" && status != "paused" && status != "draft"
  {
    match status
    case "active" => "badge-success"
    case "paused" => "badge-warning"
    case "completed" => "badge-info"
    case "draft" => "badge-danger"
    case _ => "badge-info"
  }

  // ---------------------------------------------------------------------
  // Upper-casing
  // ---------------------------------------------------------------------

  predicate IsLower(ch: char) {
    'a' <= ch <= 'z'
  }

  /** `toUpperCase` on one character, for the ASCII letters. */
  function UpperChar(ch: char): (u: char)
    ensures !IsLower(u)
    ensures !IsLower(ch) ==> u == ch
    ensures IsLower(ch) ==> 'A' <= u <= 'Z' && u as int - 'A' as int == ch as int - 'a' as int
  {
    if IsLower(ch) then (ch as int - 32) as char else ch
  }

  /** `toUpperCase` on a string: character by character, same length. */
  function UpperCase(s: string): (u: string)
    ensures |u| == |s|
    ensures forall i :: 0 <= i < |s| ==> u[i] == UpperChar(s[i])
  {
    if s == [] then [] else [UpperChar(s[0])] + UpperCase(s[1..])
  }

  lemma {:induction false} UpperCaseAppend(a: string, b: string)
    ensures UpperCase(a + b) == UpperCase(a) + UpperCase(b)
  {
    var l, r := UpperCase(a + b), UpperCase(a) + UpperCase(b);
    assert |l| == |r|;
    forall i | 0 <= i < |l| ensures l[i] == r[i] {
      if i < |a| { assert (a + b)[i] == a[i]; } else { assert (a + b)[i] == b[i - |a|]; }
    }
  }

  /** Upper-casing twice is upper-casing once. */
  lemma UpperCaseIdempotent(s: string)
    ensures UpperCase(UpperCase(s)) == UpperCase(s)
  {
  }

  // ---------------------------------------------------------------------
  // Status label
  // ---------------------------------------------------------------------

  /** `status.charAt(0).toUpperCase() + status.slice(1)`: the first
      character upper-cased, the rest kept; "" stays "". */
  function StatusLabel(status: string): (title: string)
    ensures |title| == |status|
    ensures status == "" ==> title == ""
    ensures status != "" ==> title[0] == UpperChar(status[0]) && title[1..] == status[1..]
  {
    if status == "" then "" else [UpperChar(status[0])] + status[1..]
  }

  /** Labelling a label again changes nothing. */
  lemma StatusLabelIdempotent(status: string)
    ensures StatusLabel(StatusLabel(status)) == StatusLabel(status)
  {
  }

  /** The labels of the four statuses the API defines. */
  lemma KnownStatusLabels()
    ensures StatusLabel("active") == "Active"
    ensures StatusLabel("paused") == "Paused"
    ensures StatusLabel("completed") == "Completed"
    ensures StatusLabel("draft") == "Draft"
  {
  }

  /** The badge of a status: its class and its label. */
  function StatusBadge(status: string): (b: Shown)
    ensures b.Badge? && b.cls in BadgeClasses && |b.caption| == |status|
  {
    Badge(BadgeColor(status), StatusLabel(status))
  }

  // ---------------------------------------------------------------------
  // Joining
  // ---------------------------------------------------------------------

  /** `parts.join(sep)`: the parts with `sep` between neighbours; [] gives "". */
  function Join(parts: seq<string>, sep: string): (s: string)
    ensures parts == [] ==> s == ""
    ensures |parts| == 1 ==> s == parts[0]
  {
    if parts == [] then ""
    else if |parts| == 1 then parts[0]
    else parts[0] + sep + Join(parts[1..], sep)
  }

  /** Every part upper-cased. */
  function UpperAll(parts: seq<string>): (us: seq<string>)
    ensures |us| == |parts|
    ensures forall i :: 0 <= i < |parts| ==> us[i] == UpperCase(parts[i])
  {
    seq(|parts|, i requires 0 <= i < |parts| => UpperCase(parts[i]))
  }

  /** Upper-casing a joined string is joining the upper-cased parts with the
      upper-cased separator. */
  lemma {:induction false} UpperCaseJoin(parts: seq<string>, sep: string)
    ensures UpperCase(Join(parts, sep)) == Join(UpperAll(parts), UpperCase(sep))
  {
    if |parts| > 1 {
      calc {
        UpperCase(Join(parts, sep));
        UpperCase(parts[0] + sep + Join(parts[1..], sep));
        { UpperCaseAppend(parts[0] + sep, Join(parts[1..], sep)); UpperCaseAppend(parts[0], sep); }
        UpperCase(parts[0]) + UpperCase(sep) + UpperCase(Join(parts[1..], sep));
        { UpperCaseJoin(parts[1..], sep); }
        UpperCase(parts[0]) + UpperCase(sep) + Join(UpperAll(parts[1..]), UpperCase(sep));
        { assert UpperAll(parts[1..]) == UpperAll(parts)[1..]; }
        Join(UpperAll(parts), UpperCase(sep));
      }
    }
  }

  /** `platforms.join(', ').toUpperCase()`. */
  function PlatformsText(platforms: seq<string>): string {
    UpperCase(Join(platforms, ", "))
  }

  /** The platforms line is the upper-cased platform names joined by ", ". */
  lemma PlatformsTextJoinsUppercased(platforms: seq<string>)
    ensures PlatformsText(platforms) == Join(UpperAll(platforms), ", ")
    ensures forall i :: 0 <= i < |PlatformsText(platforms)| ==> !IsLower(PlatformsText(platforms)[i])
  {
    UpperCaseJoin(platforms, ", ");
    assert UpperCase(", ") == ", ";
  }
}
