/** What a page sees of the outside world: request outcomes and the messages it shows. */
module Effects {

  /**
   * How an awaited request ends: the server answered (`res.ok` is the flag) or the
   * promise rejected (network failure, unreadable JSON, a failed upload), which sends
   * control to the handler's `catch`.
   */
  datatype Reply = Answered(ok: bool) | Raised

  /** A dialog, alert or toast shown to the operator. */
  datatype Notice = Notice(icon: string, title: string, text: string)
}
