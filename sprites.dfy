/**
 * Sprite loading with bounded retries and exponential back-off
 * (web/gfx/sprites.js).  The image element is reduced to the two facts the
 * code reads from it, `complete` and `naturalWidth`; issuing the reload
 * request itself is browser I/O.
 */
module Sprites {

  datatype Status = Loading | Ok | Err

  const MAX_ATTEMPTS: nat := 3

  /** Delay before the next retry, in milliseconds. */
  const BASE_DELAY: real := 250.0

  function Pow2(n: nat): nat {
    if n == 0 then 1 else 2 * Pow2(n - 1)
  }

  /** The delay after the `attempts`-th retry: 250 * 2^(attempts - 1). */
  function Backoff(attempts: nat): real
    requires 1 <= attempts
  {
    BASE_DELAY * Pow2(attempts - 1) as real
  }

  /** The back-off doubles from one retry to the next, starting at 250 ms. */
  lemma BackoffDoubles(attempts: nat)
    requires 1 <= attempts
    ensures Backoff(1) == 250.0
    ensures Backoff(attempts + 1) == 2.0 * Backoff(attempts)
  {
  }

  /** The four fields `tryRetrySprite` and the load handlers update. */
  datatype Record = Record(status: Status, attempts: nat, maxAttempts: nat, nextRetryAt: real)

  /** Retrying is allowed only after an error, under the cap, once the wait is over. */
  predicate MayRetry(r: Record, now: real) {
    r.status == Err && r.attempts < r.maxAttempts && r.nextRetryAt <= now
  }

  /** The record after `tryRetrySprite(sprite, now)`. */
  function Retried(r: Record, now: real): Record {
    if !MayRetry(r, now) then r
    else Record(Loading, r.attempts + 1, r.maxAttempts, now + Backoff(r.attempts + 1))
  }

  /** A retry counts one attempt, restarts loading and schedules the next window. */
  lemma RetriedEffect(r: Record, now: real)
    ensures MayRetry(r, now) ==>
              && Retried(r, now).attempts == r.attempts + 1
              && Retried(r, now).status == Loading
              && Retried(r, now).nextRetryAt == now + BASE_DELAY * Pow2(r.attempts) as real
    ensures !MayRetry(r, now) ==> Retried(r, now) == r
  {
  }

  /** A retry never makes a sprite ready: only a load with a width does. */
  lemma RetriedKeepsReadiness(r: Record, now: real)
    ensures Retried(r, now).status == Ok <==> r.status == Ok
  {
  }

  /** Attempts never pass the cap. */
  lemma RetriedKeepsCap(r: Record, now: real)
    requires r.attempts <= r.maxAttempts
    ensures Retried(r, now).attempts <= Retried(r, now).maxAttempts
    ensures Retried(r, now).maxAttempts == r.maxAttempts
  {
  }

  /** Once the cap is reached no retry happens again, whatever the time. */
  lemma RetriedExhausted(r: Record, now: real)
    requires r.maxAttempts <= r.attempts
    ensures Retried(r, now) == r
  {
  }

  /** The sprite record `loadSprite` returns, with its image's readiness facts. */
  class Sprite {
    const src: string
    var status: Status
    var attempts: nat
    var maxAttempts: nat
    var nextRetryAt: real
    var imgComplete: bool
    var naturalWidth: nat

    ghost predicate Valid()
      reads this
    {
      attempts <= maxAttempts && maxAttempts == MAX_ATTEMPTS
    }

    function Value(): Record
      reads this
    {
      Record(status, attempts, maxAttempts, nextRetryAt)
    }

    /** `loadSprite(src)`: a fresh record, loading, no attempts used. */
    constructor (src: string)
      ensures Valid()
      ensures this.src == src && Value() == Record(Loading, 0, 3, 0.0)
      ensures !imgComplete && naturalWidth == 0
    {
      this.src := src;
      status := Loading;
      attempts := 0;
      maxAttempts := MAX_ATTEMPTS;
      nextRetryAt := 0.0;
      imgComplete := false;
      naturalWidth := 0;
    }

    /** The image's load event: a zero-width image counts as an error. */
    method OnLoad(width: nat)
      requires Valid()
      modifies this`status, this`imgComplete, this`naturalWidth
      ensures Valid()
      ensures imgComplete && naturalWidth == width
      ensures status == if 0 < width then Ok else Err
      ensures ImageReady(this) <==> 0 < width
    {
      imgComplete := true;
      naturalWidth := width;
      status := if naturalWidth > 0 then Ok else Err;
    }

    /** The image's error event. */
    method OnError()
      requires Valid()
      modifies this`status, this`imgComplete
      ensures Valid() && status == Err && imgComplete
      ensures !ImageReady(this)
    {
      imgComplete := true;
      status := Err;
    }
  }

  /**
   * `tryRetrySprite(sprite, now)`; a missing sprite is ignored.  A retry
   * gives the image a new, cache-busting `src`, which starts a new request,
   * so the image is no longer complete.
   */
  method TryRetrySprite(sprite: Sprite?, now: real)
    requires sprite != null ==> sprite.Valid()
    modifies sprite
    ensures sprite != null ==> sprite.Valid() && sprite.Value() == Retried(old(sprite.Value()), now)
    ensures sprite != null ==>
              sprite.imgComplete == (old(sprite.imgComplete) && !MayRetry(old(sprite.Value()), now))
    ensures sprite != null ==> sprite.naturalWidth == old(sprite.naturalWidth)
    ensures ImageReady(sprite) == old(ImageReady(sprite))
  {
    if sprite == null {
      return;
    }
    if sprite.status != Err {
      return;
    }
    if sprite.attempts >= sprite.maxAttempts {
      return;
    }
    if now < sprite.nextRetryAt {
      return;
    }
    sprite.attempts := sprite.attempts + 1;
    sprite.status := Loading;
    var delay := BASE_DELAY * Pow2(sprite.attempts - 1) as real;
    sprite.nextRetryAt := now + delay;
    sprite.imgComplete := false;
  }

  /** `imageReady(sprite)` */
  function ImageReady(sprite: Sprite?): (ready: bool)
    reads sprite
    ensures ready <==> sprite != null && sprite.status == Ok && sprite.imgComplete && 0 < sprite.naturalWidth
  {
    sprite != null && sprite.status == Ok && sprite.imgComplete && sprite.naturalWidth > 0
  }
}
