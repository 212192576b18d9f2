/** Event watchers, as far as the loop core uses them. */
module Watchers {

  /** `active` is 0 when the watcher is stopped; an active timer's is its heap slot.
      `pending` is 0, or one more than the watcher's place in its pending queue. The
      priority may not change while a watcher is active or pending; here it never does. */
  class Watcher {
    const priority: int
    var active: int
    var pending: nat
    var at: real
    var repeat_: real

    constructor (priority: int, at: real, repeat_: real)
      ensures active == 0 && pending == 0
      ensures this.priority == priority && this.at == at && this.repeat_ == repeat_
    {
      active, pending := 0, 0;
      this.priority, this.at, this.repeat_ := priority, at, repeat_;
    }
  }
}
