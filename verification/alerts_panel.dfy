/** The alert panel: how an alert's type picks its card style and icon
    colour, and how the list of alerts is rendered (an empty-state view, or
    one card per alert in list order). */
module AlertsPanel {

  /** An alert as the panel receives it. `kind` is the record's `type` field;
      `timestamp` is the creation time in milliseconds. */
  datatype Alert = Alert(
    id: int,
    kind: string,
    message: string,
    timestamp: int,
    location: string,
    score: real)

  /** The three colour families the panel uses for alerts. */
  datatype Tone = Red | Yellow | Blue

  /** The reference mapping from alert type to colour: red for `critical`,
      yellow for `warning`, blue for every other type. */
  function ToneOf(kind: string): (t: Tone)
    ensures t == Red <==> kind == "critical"
    ensures t == Yellow <==> kind == "warning"
    ensures t == Blue <==> kind != "critical" && kind != "warning"
  {
    if kind == "critical" then Red
    else if kind == "warning" then Yellow
    else Blue
  }

  function StyleClass(t: Tone): string
  {
    match t
    case Red => "bg-red-500/10 border-red-500/30"
    case Yellow => "bg-yellow-500/10 border-yellow-500/30"
    case Blue => "bg-blue-500/10 border-blue-500/30"
  }

  function IconClass(t: Tone): string
  {
    match t
    case Red => "text-red-400"
    case Yellow => "text-yellow-400"
    case Blue => "text-blue-400"
  }

  /** The card style chosen by the panel's switch on the alert type. */
  function AlertStyle(kind: string): (style: string)
    ensures style == StyleClass(ToneOf(kind))
  {
    match kind
    case "critical" => "bg-red-500/10 border-red-500/30"
    case "warning" => "bg-yellow-500/10 border-yellow-500/30"
    case _ => "bg-blue-500/10 border-blue-500/30"
  }

  /** The colour of the warning-triangle icon, chosen by a second switch on
      the alert type; it follows the same type-to-colour mapping as the style. */
  function AlertIcon(kind: string): (icon: string)
    ensures icon == IconClass(ToneOf(kind))
  {
    match kind
    case "critical" => "text-red-400"
    case "warning" => "text-yellow-400"
    case _ => "text-blue-400"
  }

  /** One rendered alert card. The time and the percentage are shown
      formatted; the card carries the raw values they are formatted from. */
  datatype Card = Card(
    key: int,
    style: string,
    icon: string,
    kind: string,
    message: string,
    location: string,
    timestamp: int,
    score: real)

  function CardOf(a: Alert): (c: Card)
    ensures c.key == a.id
    ensures c.kind == a.kind && c.message == a.message && c.location == a.location
    ensures c.timestamp == a.timestamp && c.score == a.score
    ensures c.style == StyleClass(ToneOf(a.kind)) && c.icon == IconClass(ToneOf(a.kind))
  {
    Card(a.id, AlertStyle(a.kind), AlertIcon(a.kind), a.kind, a.message, a.location, a.timestamp, a.score)
  }

  /** The `alerts.map(...)` of the panel: one card per alert, in list order. */
  function Cards(alerts: seq<Alert>): (cards: seq<Card>)
    ensures |cards| == |alerts|
    ensures forall i :: 0 <= i < |alerts| ==> cards[i] == CardOf(alerts[i])
  {
    if alerts == [] then [] else [CardOf(alerts[0])] + Cards(alerts[1..])
  }

  datatype PanelView = NoAlerts | CardList(cards: seq<Card>)

  /** The panel: the "No alerts detected" view for an empty list, otherwise
      the list of cards. */
  function RenderPanel(alerts: seq<Alert>): (v: PanelView)
    ensures v == NoAlerts <==> |alerts| == 0
    ensures v.CardList? ==> |v.cards| == |alerts|
    ensures v.CardList? ==> forall i :: 0 <= i < |alerts| ==> v.cards[i] == CardOf(alerts[i])
  {
    if |alerts| == 0 then NoAlerts else CardList(Cards(alerts))
  }
}
