# crypto-msg-parser-ffi, modelled in Dafny

This project models the C-callable boundary layer that sits over the
`crypto_msg_parser` engine. The engine parses cryptocurrency-exchange messages.
The layer adds three things, and these are what the model covers:

- **The market-type bridge** (`src/market_type.rs`). It holds a `#[repr(C)]` copy
  of the eleven-variant market type and the two conversions `to_rust` and
  `from_rust`. Module `CMarketType` models it. The engine's own vocabularies
  are in module `EngineTypes`.
- **The entry points** (`src/lib.rs`). These are `extract_symbol`,
  `get_msg_type`, `parse_trade`, `parse_l2` and `parse_funding_rate`. Each one
  decodes its two C strings as UTF-8 and makes one engine call inside
  `catch_unwind`. It then maps the outcome either to a freshly allocated JSON
  buffer or to a sentinel (null, or `MessageType::Other`). A caught panic also
  writes one line to stderr. Module `Boundary` models them.
- **The buffer-ownership protocol** (`src/lib.rs`). Each output buffer comes from
  `CString::into_raw`, and the caller returns it through `deallocate_string`.
  Module `Buffers` models single steps. Module `Ownership` models whole caller
  sessions.

The parsing engine and `serde_json::to_string` are parameters of the entry
points (function values). All the model relies on is whether each of them
returns a value, reports a controlled failure, or panics. A C text argument
is given as the result of decoding it as UTF-8, where `None` means the bytes
are not valid UTF-8. A pointer `Buf(addr)` carries an allocation identity,
not a machine address. Each `into_raw` takes the next identity from a
counter, so every allocation gets a new one. The subset type `Heap` records
that every live identity lies below that counter, which is why a new buffer
is always distinct from the live ones.

Points where the code behaves in a way a reader might not expect:

- **UTF-8 decoding is not guarded.** `CStr::to_str().unwrap()` runs before
  `catch_unwind` (`src/lib.rs:17-26`, `48-58`, `75-84`, `110-125`,
  `152-161`). A decoding panic is therefore not intercepted by the guard.
  The model gives it the distinct outcome `Call.Escaped`, not a sentinel.
- **The diagnostic line has no context.** The code writes
  `eprintln!("{:?}", err)` with `err` a `Box<dyn Any + Send>`
  (`src/lib.rs:40`, `62`, `96`, `139`, `175`). That prints an opaque
  `Any { .. }`, not the panic message, and nothing about the exchange, the
  market type or the message. The model counts lines and does not model their
  text.
- **The bridge is not used.** `src/lib.rs` never declares `mod market_type`;
  it passes the engine's `crypto_market_type::MarketType` straight through
  (`src/lib.rs:2`, `28`). So the entry points take `EngineTypes.MarketType`,
  and `CMarketType` stands alone.
- **`get_msg_type` is not C-callable.** The C header declares it as a C
  function (`include/crypto_msg_parser_ffi.h:32`). In the code it has neither `#[no_mangle]` nor `extern "C"` (`src/lib.rs:47`).
  So an escaped decode panic unwinds into its Rust caller. For the other
  entry points the panic crosses a C frame.

## Model

| member | source | states |
|---|---|---|
| `CMarketType.Discriminant` | src/market_type.rs:2-20 | The C code of a variant is its position in the declaration order: Spot is 0 and BVOL is 10. |
| `CMarketType.DeclaredOnce` | src/market_type.rs:4-20 | Every variant appears in the declaration exactly once, so the codes 0..10 and the variants correspond one to one. |
| `CMarketType.ToRust` | src/market_type.rs:24-38 | `to_rust` is total and maps every C variant to the engine variant with the same name. |
| `CMarketType.FromRust` | src/market_type.rs:41-55 | `from_rust` is total and maps every engine variant to the C variant with the same name. |
| `CMarketType.FromRustToRust` | src/market_type.rs:24-55 | `from_rust(to_rust(m)) == m` for every C variant. |
| `CMarketType.ToRustFromRust` | src/market_type.rs:24-55 | `to_rust(from_rust(e)) == e` for every engine variant. |
| `CMarketType.ToRustInjective` | src/market_type.rs:25-36 | Distinct C variants never map to the same engine variant. |
| `CMarketType.FromRustInjective` | src/market_type.rs:42-54 | Distinct engine variants never map to the same C variant. |
| `Buffers.IntoRaw` | src/lib.rs:30-32 | Handing text over allocates a buffer that was not live before. The new buffer holds exactly that text, and the other live buffers are unchanged. |
| `Buffers.DeallocateString` | src/lib.rs:182-190 | A null pointer changes nothing. A live buffer leaves the live set, and every other buffer keeps its contents. Any other pointer is outside the contract. |
| `Buffers.ReleaseUndoesIntoRaw` | src/lib.rs:181-189 | Releasing the buffer that was just handed over restores the live buffers exactly. |
| `Buffers.NoDoubleRelease` | src/lib.rs:181-189 | Once a buffer is released, releasing it again is outside the contract. |
| `Ownership.AcquiredAreFresh` | src/lib.rs:30-32 | Each buffer handed over during a session is a new allocation: its identity was not live when the session began. |
| `Ownership.LiveAfterRun` | src/lib.rs:181-189 | After a session that follows the protocol, the live buffers are the initial ones, plus those handed over, minus those released, as sets of allocation identities. A buffer that stays live keeps its contents. |
| `Ownership.BalancedSessionLeavesNoLeak` | src/lib.rs:181-189 | A caller that releases exactly the allocations it was handed ends with the live buffers it started with. |
| `Boundary.OutcomesPartitioned` | src/lib.rs:84-99 | Every engine outcome falls in exactly one row of the sentinel table: success, controlled failure, or caught panic. |
| `Boundary.Found` | src/lib.rs:84-91 | `if let Ok(..)` keeps the engine's success value, turns an `Err` into "no result", and leaves a panic a panic. |
| `Boundary.NormalizeTimestamp` | src/lib.rs:119-123 | A timestamp `<= 0` becomes "not supplied". A positive timestamp is forwarded unchanged. |
| `Boundary.ExtractSymbol` | src/lib.rs:12-44 | A decode failure escapes. Otherwise the call returns a fresh buffer with the symbol's JSON exactly when the engine returns `Some` and that JSON is encodable, and null otherwise with no buffer touched. One line is logged exactly when a panic is caught in the engine, the serialiser unwrap or the `CString::new` unwrap. |
| `Boundary.GetMsgType` | src/lib.rs:47-66 | A decode failure escapes. Otherwise the call returns the engine's value unchanged with nothing logged, or `Other` with one line logged if the engine panics. Buffers are never touched. |
| `Boundary.ParseTrade` | src/lib.rs:70-100 | A decode failure escapes. Otherwise the call returns a fresh buffer with the JSON array exactly when the engine returns `Ok` and serialisation succeeds. An engine `Err` gives null with nothing logged. A panic in the guard gives null with one line logged. |
| `Boundary.ParseL2` | src/lib.rs:104-143 | Same table as `parse_trade`, for the engine call that receives the normalised timestamp. |
| `Boundary.ParseFundingRate` | src/lib.rs:147-179 | Same table as `parse_trade`, for the funding-rate engine call. |
| `Boundary.NonPositiveTimestampsAgree` | src/lib.rs:119-127 | `parse_l2` behaves identically for every timestamp `<= 0`. |
| `Boundary.FailuresLookAlike` | src/lib.rs:84-99 | An engine `Err` and a caught panic give the same return value and the same buffers. Only the diagnostic line differs. |
| `Boundary.CallIsOneAcquire` | src/lib.rs:84-99 | Any completed call meeting the sentinel table, which all four string-returning entry points do, either changes no buffer or performs exactly one `into_raw` of some text. |
| `Boundary.HandOver` | src/lib.rs:85-91 | The guarded closure panics exactly when the engine, the serialiser unwrap or the `CString::new` unwrap panics. When there is JSON to deliver it hands it over with one `into_raw`. An engine `Err` gives null with the buffers untouched. |
| `Boundary.CatchUnwind` | src/lib.rs:93-99 | The guard always completes. It logs one line exactly when the closure panicked, and then returns the sentinel with the buffers as before. Otherwise it passes the closure's value and buffers through. |
| `Outcomes.Result.ToOption` | src/lib.rs:85 | `if let Ok(..)` sees a value exactly when the result is `Ok`, and that value is the `Ok` payload. |

## Left out

- The engine's parsing of exchange messages (`crypto_msg_parser::*`). It is an external library, so the entry points take it as a parameter.
- The contents of JSON serialisation. `serde_json::to_string` is a parameter that may fail; its `unwrap` turns a failure into a panic.
- UTF-8 validation and C-string byte layout. Inputs are given already decoded (`Option<string>`), pointers are opaque addresses, and null termination is implicit in `CText`.
- Null input pointers. The code only `debug_assert!`s that they are non-null, and `CStr::from_ptr(null)` is undefined behaviour, so the model assumes valid inputs.
- Out-of-range market-type codes from C. Passing a code outside 0..10 as a `#[repr(C)]` enum is undefined behaviour in Rust, so the model has no decoding from integers.
- Address reuse by the allocator. A real allocator behind `CString::into_raw` may return a freed address again. The model gives every allocation a new identity, and the `Ownership` lemmas rely on that: `Acquired` and `Released` are sets of allocation identities, not of machine addresses.
- The text of diagnostic lines. Only their number is modelled. The Rust panic hook's own stderr output is not part of the layer and is not modelled.
- The unit tests (`src/lib.rs:192-308`). Their expectations depend on the engine's parsing and on floating-point values.
- Threads and reentrancy. The layer keeps no shared state, so there is nothing to model.
- `extract_timestamp`, `parse_bbo`, `parse_l2_topk` and `parse_candlestick`. They belong to other revisions of the layer and do not exist in this revision of `src/lib.rs`.
- `include/crypto_msg_parser_ffi.h` is generated declarations only and is not part of this model.
- `EngineTypes.MessageType` lists representative variants. Its full variant list belongs to the external `crypto_msg_type` crate. The boundary names only `Other`.
