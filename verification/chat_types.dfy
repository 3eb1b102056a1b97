/**
 * The domain model of the group-chat demo: members, messages, the page
 * background settings and the single `ChatState` record the store holds.
 */
module ChatTypes {

  /** A participant of the chat; `avatar` is the URL of its picture. */
  datatype Member = Member(id: string, name: string, avatar: string)

  /**
   * One chat message. `timestamp` is the creation time in milliseconds since
   * the epoch (a JavaScript `Date`).
   */
  datatype Message = Message(id: string, senderId: string, content: string, timestamp: nat)

  /** The four bubble themes; the type admits no other value. */
  datatype Theme = Rose | Minimal | Brown | Dark

  /** Which half of `BackgroundSettings` is in effect. */
  datatype BackgroundType = Solid | Gradient

  datatype GradientType = Linear | Radial | Conic

  /**
   * An opacity, kept as a whole number of tenths: the range inputs that
   * produce it step by 0.1, and the initial values are 1, 0.9 and 0.8.
   */
  datatype Opacity = Tenths(tenths: nat)

  /** One gradient stop: a `#RRGGBB` colour, its opacity, and its position in percent. */
  datatype ColorStop = ColorStop(color: string, opacity: Opacity, position: int)

  /**
   * The page background. One flat record carries both the solid and the
   * gradient fields; `kind` (the `type` field) says which are in effect, and switching it keeps
   * the fields of the other kind.
   */
  datatype BackgroundSettings = BackgroundSettings(
    kind: BackgroundType,
    solidColor: string,
    solidOpacity: Opacity,
    gradientType: GradientType,
    gradientDirection: string,
    gradientColors: seq<ColorStop>)

  /** The whole state of the chat, replaced as one value by every store operation. */
  datatype ChatState = ChatState(
    members: seq<Member>,
    messages: seq<Message>,
    currentSender: string,
    currentViewer: string,
    theme: Theme,
    groupName: string,
    background: BackgroundSettings)

  /** The fixed roster of the demo. */
  const MEMBERS: seq<Member> := [
    Member("imandi", "Imandi", "https://i.ibb.co/Ps7N19K6/Screenshot-2025-08-16-040225.png"),
    Member("sandani", "Sandani", "https://i.ibb.co/tTY7CjXH/Screenshot-2025-08-16-040410.png"),
    Member("sachintha", "Sachintha", "https://i.ibb.co/5xYnR26c/Screenshot-2025-08-16-040021.png")
  ]

  /** The ids of `members`, in roster order. */
  function MemberIds(members: seq<Member>): (ids: seq<string>)
    ensures |ids| == |members|
    ensures forall i :: 0 <= i < |members| ==> ids[i] == members[i].id
  {
    if members == [] then [] else [members[0].id] + MemberIds(members[1..])
  }

  /** No id occurs twice in `members`. */
  predicate DistinctIds(members: seq<Member>) {
    forall i, j :: 0 <= i < j < |members| ==> members[i].id != members[j].id
  }

  /** The roster holds exactly imandi, sandani and sachintha, each once. */
  lemma RosterFacts()
    ensures MemberIds(MEMBERS) == ["imandi", "sandani", "sachintha"]
    ensures DistinctIds(MEMBERS)
  {
  }
}
