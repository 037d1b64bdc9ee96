/** The two configured backend addresses and the selector the pages call (`getData`). */
module Needs {
  import Text

  /** Base of the meditation HTTP API. */
  const MeditationApiUrl: string := "https://3826-34-168-254-170.ngrok-free.app"

  /** Base of the conflict-mediation WebSocket endpoint; room paths are appended to it. */
  const ConflictWsUrl: string := "wss://3826-34-168-254-170.ngrok-free.app/ws/conflict/"

  /**
   * `getData(tof)`: the API address for exactly the argument "api", the WebSocket address
   * for every other argument (the pages pass "else"). Total: always one of the two constants.
   */
  function GetData(tof: string): (url: string)
    ensures url == MeditationApiUrl <==> tof == "api"
    ensures url == ConflictWsUrl <==> tof != "api"
  {
    if tof == "api" then MeditationApiUrl else ConflictWsUrl
  }

  /** The WebSocket address ends in `/ws/conflict/`, so a room id appended to it lands in that path. */
  lemma ConflictUrlShape()
    ensures Text.EndsWith(GetData("else"), "/ws/conflict/")
  {
  }
}
