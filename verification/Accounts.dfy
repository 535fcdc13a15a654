/** Account rows and what the account service does to them (account/service.go). */
module Accounts {
  import opened Text

  datatype Status = Active | Disabled | Expired

  /** blob is the credential; the amount of credit about to expire is taken as given. */
  datatype Account = Account(id: int, blob: string, refreshedAt: int, status: Status, pausedUntil: Option<int>,
                             lastUsed: Option<int>, expiring: real)
  {
    /** The selection condition of the router: active and not within a pause. */
    predicate Selectable(now: int) {
      status == Active && (pausedUntil.None? || pausedUntil.value < now)
    }
  }

  type Table = map<int, Account>

  /** Every row is stored under its own id. */
  ghost predicate Keyed(t: Table) {
    forall id <- t :: t[id].id == id
  }

  predicate Usable(t: Table, id: int, now: int) {
    id in t && t[id].Selectable(now)
  }

  const TEN_MINUTES := 600
  /** At least a hundred years of seconds. */
  const FAR := 3_153_600_000

  /** What the plugin answers to a refresh; a non-zero code is a refusal. */
  datatype RefreshReply = Unreachable(message: string) | Reply(code: int, message: string, blob: string, expiring: Option<real>)

  datatype Refreshed = Fresh(account: Account) | AuthFailed | Transient(message: string)

  function Refresh(t: Table, id: int, reply: RefreshReply, now: int): (Table, Refreshed) {
    if id !in t then (t, Transient("record not found"))
    else match reply
      case Unreachable(message) => (t, Transient(message))
      case Reply(code, message, blob, expiring) =>
        if code != 0 then
          (if code == 401 then t[id := t[id].(status := Expired)] else t, AuthFailed)
        else
          var a := t[id].(status := Active, refreshedAt := now, blob := if blob != "" then blob else t[id].blob,
                          expiring := if expiring.Some? then expiring.value else t[id].expiring);
          (t[id := a], Fresh(a))
  }

  /** Pausing affects active accounts only. */
  function MarkAutoPause(t: Table, id: int, until: int): Table {
    if id in t && t[id].status == Active then t[id := t[id].(pausedUntil := Some(until))] else t
  }

  /** After 429 an account rests for ten minutes, after 402 until it is resumed by hand. */
  function PauseLength(status: int): int {
    if status == 429 then TEN_MINUTES else FAR
  }

  function MarkUsed(t: Table, id: int, now: int): Table {
    if id in t then t[id := t[id].(lastUsed := Some(now))] else t
  }
}
