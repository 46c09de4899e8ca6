/** `update_status_indicator`: the colour of the connection LED for each status. */
module Status {

  /** The values `connection_status` is set to. */
  const CONNECTED := "connected"
  const DISCONNECTED := "disconnected"
  const CONNECTING := "connecting"
  const ERROR := "error"

  const COLORS: map<string, string> := map[
    CONNECTED := "#2ecc71",     // green
    DISCONNECTED := "#e74c3c",  // red
    CONNECTING := "#f1c40f",    // yellow
    ERROR := "#95a5a6"          // grey
  ]

  /** `status_colors.get(status, status_colors['error'])`. */
  function Color(status: string): (c: string)
    ensures c in COLORS.Values
    ensures status !in COLORS ==> c == COLORS[ERROR]
  {
    if status in COLORS then COLORS[status] else COLORS[ERROR]
  }

  /** The four statuses get four different colours, the ones of the table. */
  lemma ColorsOfKnownStatuses()
    ensures Color(CONNECTED) == "#2ecc71" && Color(DISCONNECTED) == "#e74c3c"
    ensures Color(CONNECTING) == "#f1c40f" && Color(ERROR) == "#95a5a6"
    ensures forall s, t :: s in COLORS && t in COLORS && s != t ==> Color(s) != Color(t)
  {
  }

  /**
   * `Color`'s fallback restated as a named property, with the four table
   * statuses spelled out: any other status is drawn in the error colour.
   */
  lemma UnknownStatusLooksLikeError(status: string)
    requires status != CONNECTED && status != DISCONNECTED
    requires status != CONNECTING && status != ERROR
    ensures Color(status) == Color(ERROR)
  {
  }
}
