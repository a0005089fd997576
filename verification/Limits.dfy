/** The budget constants the other modules share (crates/wsnet-limits/src/lib.rs). */
module Limits {
  newtype byte = x: int | 0 <= x < 256

  type Bytes = seq<byte>

  datatype Option<+T> = None | Some(value: T)

  const U64_MAX: nat := 0xFFFF_FFFF_FFFF_FFFF

  // Record and packet-number layer.
  const MAX_TCP_PAYLOAD: nat := 16 * 1024
  const REPLAY_WINDOW: nat := 65_536
  const MAX_IN_FLIGHT_RECORDS: nat := 4_096
  const REPLAY_MAX_FORWARD_JUMP: nat := REPLAY_WINDOW
  const PACKET_NO_EXHAUSTION_MARGIN: nat := 0x10_0000

  // Authentication and binding.
  const AUTH_WINDOW_MIN_SECS: nat := 60
  const AUTH_WINDOW_MAX_SECS: nat := 300
  const BIND_PROOF_TTL_SECS: nat := 30
  const AUTH_RATE_PER_SEC: nat := 5
  const AUTH_BURST: nat := 10
  const MAX_UNAUTH_CONNECTIONS_PER_IP: nat := 20

  // Data plane.
  const MAX_CHAIN_HOPS: nat := 4
  const REORDER_BUFFER_BYTES: nat := 256 * 1024
  const REORDER_MAX_OUT_OF_ORDER_BYTES: nat := 128 * 1024
  const REORDER_MAX_BLOCKS: nat := 128
  const FLOW_WINDOW_BYTES: nat := 256 * 1024
  const STREAM_INITIAL_CREDIT: nat := 256 * 1024
  const STREAM_MAX_CREDIT: nat := 1024 * 1024
  const UDP_MAX_PAYLOAD_DEFAULT: nat := 61_440

  function Min(a: int, b: int): int { if a < b then a else b }

  function Max(a: int, b: int): int { if a < b then b else a }

  /** `u64::saturating_sub` and `Instant::duration_since`. */
  function Minus(a: nat, b: nat): nat { if a < b then 0 else a - b }

  lemma Assoc<T>(a: seq<T>, b: seq<T>, c: seq<T>)
    ensures (a + b) + c == a + (b + c)
  {}

  /** Cutting `s` at `n` and gluing both parts after `p` gives `p + s`. */
  lemma Splice<T>(p: seq<T>, s: seq<T>, n: nat)
    requires n <= |s|
    ensures (p + s[..n]) + s[n..] == p + s
  {}

  /** Two neighbouring slices make one slice. */
  lemma Glue<T>(s: seq<T>, i: nat, j: nat, k: nat)
    requires i <= j <= k <= |s|
    ensures s[i..j] + s[j..k] == s[i..k]
  {}
}
