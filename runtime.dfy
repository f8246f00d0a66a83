/**
 * The two ambient effects the handlers use, `crypto.randomUUID()` and `Date.now()`, as an object
 * with injected supplies: the k-th UUID drawn is `uuid(k)` and the k-th clock reading is `nowMs(k)`.
 */
module Runtime {

  class Platform {
    const uuid: nat -> string
    const nowMs: nat -> nat
    var uuidsDrawn: nat
    var clockReads: nat

    constructor (uuid: nat -> string, nowMs: nat -> nat)
      ensures this.uuid == uuid && this.nowMs == nowMs
      ensures uuidsDrawn == 0 && clockReads == 0
    {
      this.uuid := uuid;
      this.nowMs := nowMs;
      uuidsDrawn := 0;
      clockReads := 0;
    }

    /** `crypto.randomUUID()`. */
    method RandomUUID() returns (u: string)
      modifies this
      ensures u == uuid(old(uuidsDrawn))
      ensures uuidsDrawn == old(uuidsDrawn) + 1 && clockReads == old(clockReads)
    {
      u := uuid(uuidsDrawn);
      uuidsDrawn := uuidsDrawn + 1;
    }

    /** `Math.floor(Date.now() / 1000)`: the current time in whole seconds. */
    method NowSeconds() returns (t: nat)
      modifies this
      ensures t == nowMs(old(clockReads)) / 1000
      ensures clockReads == old(clockReads) + 1 && uuidsDrawn == old(uuidsDrawn)
    {
      t := nowMs(clockReads) / 1000;
      clockReads := clockReads + 1;
    }
  }
}
