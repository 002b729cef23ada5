# clewdr cookie pool and Claude request types, in Dafny

This project models two parts of clewdr, a proxy that hands requests to the
Claude API on behalf of a pool of account cookies.

**The cookie actor** (`src/services/cookie_actor.rs`) owns four pieces of state:

- `valid`, a rotation queue of usable cookies;
- `exhausted`, a hash set of cookies that are cooling down;
- `invalid`, a hash set of discarded cookies, each with the reason it was discarded;
- `moka`, a cache that maps a request hash to the cookie last handed out for it.

Its handlers hand out cookies, take them back with a reason, expire cooldowns,
roll usage windows over, accept new cookies, delete cookies and report the pool.
The actor processes one message at a time. So the model is a class,
`CookieActor.CookieActorState`, whose methods update those fields in place with
loops. Each method is proved against a value-level definition in `PoolSpec`.
The properties of the pool are lemmas about those definitions.

**The request types** (`src/types/claude.rs`) carry a few pure functions. They are
modelled in `ClaudeTypes`, with datatypes, functions and lemmas:

- the `tool_choice` decoder;
- the content-block and message constructors;
- the request builder;
- the text that token counting passes to the tokenizer.

Files:

- `wrappers.dfy`: `Option` and `Result`.
- `cookie_config.dfy`: the cookie records. They are defined in clewdr's configuration module, which is not part of this model.
- `pool_spec.dfy`: the pool as a value, every handler as a function or relation, and the lemmas.
- `cookie_actor.dfy`: the actor state as a class, with its handlers and the loops inside them.
- `json.dfy`: the few JSON operations the request types use.
- `claude_types.dfy`: the request and response types and their logic.

Cookies are compared and hashed by their cookie string alone. So a hash set of
cookies is modelled as a map keyed by that string. Inserting into it never
replaces an entry that is already there.

## Model

| member | source | states |
|---|---|---|
| `PoolSpec.Without` | src/services/cookie_actor.rs:216-218 | `retain(c != cookie)` keeps exactly the entries of other cookies |
| `PoolSpec.FirstIndex` | src/services/cookie_actor.rs:210 | the index found is the first entry of the cookie; there is none iff the cookie is not queued |
| `PoolSpec.ResetIfDue` | src/services/cookie_actor.rs:115-128 | a window changes iff `has_reset == Some(true)` and `now >= resets_at`; it then has zero usage and `resets_at = now + window_secs`, otherwise it is unchanged |
| `PoolSpec.ResetIfDueSettles` | src/services/cookie_actor.rs:115-128 | a window just reset is not due again at the same instant |
| `PoolSpec.ApplyResets` | src/services/cookie_actor.rs:133-163 | the cookie and its cooldown are kept; the flag is set iff the cookie changed |
| `PoolSpec.ApplyResetsSettles` | src/services/cookie_actor.rs:133-163 | after `apply_resets` no window of the cookie is still due |
| `PoolSpec.RefreshSpec` | src/services/cookie_actor.rs:114-179 | `refresh_usage_windows` keeps the queue's length and the cooling keys, and leaves the discarded set and the cache alone |
| `PoolSpec.RefreshKeepsMembership` | src/services/cookie_actor.rs:165-176 | refreshing keeps every cookie in its place: queue order and keys, and the keys of the cooling set |
| `PoolSpec.RefreshReportsChange` | src/services/cookie_actor.rs:114-179 | `changed` is true iff the pool changed; a second refresh at the same instant reports no change |
| `PoolSpec.StillCooling` | src/services/cookie_actor.rs:93-101 | the cookies left cooling are exactly those whose `reset` did not clear the cooldown, each with its entry unchanged |
| `PoolSpec.ResetsTo` | src/services/cookie_actor.rs:91-110 | the relation `reset` establishes: the old queue is a prefix of the new one, the appended tail is exactly the expired cookies as `reset` returned them, the rest stay cooling, and the discarded set and cache are unchanged (a definition without a contract of its own) |
| `PoolSpec.ResetPreservesCount` | src/services/cookie_actor.rs:91-110 | expiry keeps the number of queued plus cooling cookies |
| `PoolSpec.ResetMovesExactlyExpired` | src/services/cookie_actor.rs:91-110 | a cooling cookie stays iff its `reset` keeps a cooldown; otherwise it is appended to the queue without one |
| `PoolSpec.ResetIdle` | src/services/cookie_actor.rs:102-104 | when nothing expired, expiry changes nothing |
| `PoolSpec.ResetPreservesDistinct` | src/services/cookie_actor.rs:91-110 | expiry never queues a cookie twice or leaves it both queued and cooling |
| `PoolSpec.StickyHit` | src/services/cookie_actor.rs:187-190 | a hit happens exactly when the cookie cached for the hash is still queued, and is its first queue position |
| `PoolSpec.PickSpec` | src/services/cookie_actor.rs:182-205 | the pick fails iff the queue is empty, and then changes nothing; a cookie handed out was queued and still is; a hash caches the cookie handed out; the cooling and discarded sets are unchanged |
| `PoolSpec.PickRoundRobin` | src/services/cookie_actor.rs:196-200 | without a hash, the front cookie is returned and moved to the back; the queue's multiset and the other collections are unchanged |
| `PoolSpec.PickSticky` | src/services/cookie_actor.rs:187-203 | a hash whose cached cookie is queued returns that queued entry, keeps the queue order and re-caches it; on a miss the rotated cookie is cached under the hash |
| `PoolSpec.PickEmpty` | src/services/cookie_actor.rs:196-199 | with an empty queue the result is `NoCookieAvailable` and the pool is unchanged |
| `PoolSpec.DispatchErrorChangesNothing` | src/services/cookie_actor.rs:182-205 | a failed `dispatch` (including its expiry step) leaves the pool as it was, and the queue was empty |
| `PoolSpec.DispatchRespectsCooldown` | src/services/cookie_actor.rs:182-205 | a cookie whose cooldown `reset` keeps is never handed out and stays out of the queue |
| `PoolSpec.DispatchPreservesDistinct` | src/services/cookie_actor.rs:182-205 | `dispatch` keeps the pool free of duplicates and keeps the count of queued plus cooling cookies |
| `PoolSpec.Exhaust` | src/services/cookie_actor.rs:223-238 | the cookie leaves the queue and is cooling; it is saved iff it was not cooling before; every earlier cooling entry keeps its value; discarded set and cache unchanged |
| `PoolSpec.Discard` | src/services/cookie_actor.rs:239-260 | the cookie leaves the queue and is discarded; it is saved, with the given reason, iff it was not discarded before; every earlier reason is kept; cooling set and cache unchanged |
| `PoolSpec.CollectSpec` | src/services/cookie_actor.rs:208-264 | `NormalPro` changes and saves nothing; no arm ever drops a cooling or discarded cookie or touches the cache |
| `PoolSpec.CollectUpdatesInPlace` | src/services/cookie_actor.rs:209-215 | with no reason, the first queued entry of the cookie is replaced in place and saved, or nothing happens when it is not queued |
| `PoolSpec.CollectNormalProIdle` | src/services/cookie_actor.rs:220-222 | `NormalPro` changes nothing and saves nothing |
| `PoolSpec.CollectExhausts` | src/services/cookie_actor.rs:223-238 | `TooManyRequest(i)`/`Restricted(i)` drop every queued entry of the cookie and file it as cooling as the cookie with its usage windows cleared and `reset_time = Some(i)`, every other cooling entry unchanged; an entry already cooling is kept and nothing is saved |
| `PoolSpec.CollectDiscards` | src/services/cookie_actor.rs:239-260 | every other reason drops the cookie from the queue and records it as discarded with that reason unless already discarded; `exhausted` is untouched |
| `PoolSpec.CollectPreservesDistinct` | src/services/cookie_actor.rs:208-264 | `collect` keeps the pool free of duplicates |
| `PoolSpec.AcceptSpec` | src/services/cookie_actor.rs:267-281 | a cookie is accepted iff it is not known; a refused one changes nothing; an accepted one is appended after the unchanged queue; nothing else changes |
| `PoolSpec.AcceptPreservesDistinct` | src/services/cookie_actor.rs:267-281 | when the known set covers the pool, accepting cannot create a duplicate; the cookie ends up queued, cooling or already known |
| `PoolSpec.DeleteSpec` | src/services/cookie_actor.rs:293-311 | `delete` succeeds iff the cookie was queued, cooling or discarded, fails with `UnexpectedNone` otherwise, and afterwards the cookie is in no collection while the other queued cookies stay |
| `PoolSpec.DeleteRemoves` | src/services/cookie_actor.rs:293-300 | after `delete` the cookie is in no collection and every other cookie is where it was: the queue keeps exactly the other cookies' entries, and the cooling and discarded entries of other cookies keep their values |
| `PoolSpec.DeleteReportsMissing` | src/services/cookie_actor.rs:293-311 | `delete` fails iff the cookie was in none of the three collections, and then changes nothing; a second `delete` fails |
| `PoolSpec.DeletePreservesDistinct` | src/services/cookie_actor.rs:293-311 | `delete` keeps the pool free of duplicates |
| `PoolSpec.Reports` | src/services/cookie_actor.rs:284-290 | the report relation: the queue as it is, and each cooling and each discarded cookie listed exactly once (a definition without a contract of its own) |
| `PoolSpec.Ready` | src/services/cookie_actor.rs:324-331 | the initial queue holds exactly the configured cookies without a cooldown |
| `PoolSpec.Cooling` | src/services/cookie_actor.rs:332-339 | the initial cooling set holds every configured cookie with a cooldown, each under its own key |
| `PoolSpec.Discarded` | src/services/cookie_actor.rs:340 | the initial discarded set holds exactly the configured wasted cookies |
| `PoolSpec.Partition` | src/services/cookie_actor.rs:319-356 | the initial pool holds every configured cookie, queued or cooling according to its cooldown, with an empty cache, and the discarded set holds exactly the configured wasted cookies with their reasons |
| `PoolSpec.PartitionDistinct` | src/services/cookie_actor.rs:324-339 | distinct configured cookies give a pool without duplicates |
| `CookieActor.Retain` | src/services/cookie_actor.rs:295-298 | the loop computes `Without` and reports whether an entry was dropped |
| `CookieActor.Find` | src/services/cookie_actor.rs:210 | the loop finds `FirstIndex` |
| `CookieActor.CollectReady` | src/services/cookie_actor.rs:324-331 | the loop builds `Ready` |
| `CookieActor.CollectCooling` | src/services/cookie_actor.rs:332-339 | the loop fills the hash set `Cooling` |
| `CookieActor.CollectDiscarded` | src/services/cookie_actor.rs:340 | the loop fills the hash set `Discarded` |
| `CookieActor.ExpireCooling` | src/services/cookie_actor.rs:92-101 | the `retain` pass keeps `StillCooling` and collects each expired cookie once, as `reset` returned it |
| `CookieActor.RefreshEach` | src/services/cookie_actor.rs:165-167 | the loop refreshes every queued cookie, and `changed` is true iff one was due |
| `CookieActor.RefreshDrain` | src/services/cookie_actor.rs:169-176 | the drain refills the set with every cookie refreshed, and `changed` is true iff one was due |
| `CookieActor.ListCooling` | src/services/cookie_actor.rs:287 | the list holds each cooling cookie exactly once |
| `CookieActor.ListDiscarded` | src/services/cookie_actor.rs:288 | the list holds each discarded cookie with its reason exactly once |
| `CookieActor.CookieActorState.constructor` | src/services/cookie_actor.rs:319-356 | the state is `Partition` of the configuration, and has no duplicates when the configuration has none |
| `CookieActor.CookieActorState.ResetExpired` | src/services/cookie_actor.rs:91-110 | the new state is related to the old by `ResetsTo` and keeps the pool free of duplicates |
| `CookieActor.CookieActorState.RefreshUsageWindows` | src/services/cookie_actor.rs:114-179 | new state and flag are `RefreshSpec` of the old state |
| `CookieActor.CookieActorState.Dispatch` | src/services/cookie_actor.rs:182-205 | expiry followed by `PickSpec`; the cookie returned is queued; an error is `NoCookieAvailable` and leaves the state unchanged |
| `CookieActor.CookieActorState.ExhaustCookie` | src/services/cookie_actor.rs:223-238 | the state becomes `Exhaust` of the old one |
| `CookieActor.CookieActorState.DiscardCookie` | src/services/cookie_actor.rs:239-260 | the state becomes `Discard` of the old one |
| `CookieActor.CookieActorState.Collect` | src/services/cookie_actor.rs:208-264 | the state and the save flag are `CollectSpec` of the old state, and duplicates stay out |
| `CookieActor.CookieActorState.Accept` | src/services/cookie_actor.rs:267-281 | a known cookie is refused; any other joins the back of the queue and is saved |
| `CookieActor.CookieActorState.Delete` | src/services/cookie_actor.rs:293-311 | the state and the result are `DeleteSpec` of the old state |
| `CookieActor.CookieActorState.Evict` | src/services/cookie_actor.rs:342-345 | the cache forgets one hash and nothing else changes |
| `CookieActor.CookieActorState.Report` | src/services/cookie_actor.rs:284-290 | the report is the queue in order, plus each cooling and discarded cookie exactly once |
| `ClaudeTypes.DecodeMaxTokens` | src/types/claude.rs:14-16 | an absent `max_tokens` is 8192; a value read is exactly the number present; a number outside the `u32` range is an invalid value and anything that is not a number an invalid type, as serde's `u32` visitor reports them |
| `ClaudeTypes.MaxTokensDefault` | src/types/claude.rs:14-16 | a missing `max_tokens` reads as 8192, a present one as written, a non-number is refused, and a number outside the `u32` range is an invalid value |
| `ClaudeTypes.FromTagged` | src/types/claude.rs:677-700 | the conversion loses nothing: the tagged form is recovered from its result |
| `ClaudeTypes.DecodeTagged` | src/types/claude.rs:654-675 | a missing `type` is `MissingField`; a decoded value's tag and tool name are the ones in the object |
| `ClaudeTypes.DecodeToolChoice` | src/types/claude.rs:702-731 | a string decodes iff it is one of the four shorthands; only strings and objects decode; a decoded object carries the choice's tag |
| `ClaudeTypes.EncodeToolChoice` | src/types/claude.rs:627-652 | the serialised object carries the choice's tag, a `name` iff the choice is `tool`, and the parallel-use flag iff the choice has one set |
| `ClaudeTypes.FromTaggedBijective` | src/types/claude.rs:677-700 | the tagged-to-untagged conversion keeps the variant and every field; it is a bijection |
| `ClaudeTypes.DecodeToolChoiceStrings` | src/types/claude.rs:709-719 | a string decodes iff it is `auto`, `any`, `required` or `none`, to `Auto{None}`, `Any{None}`, `Any{None}` and `None`; any other string is an unsupported-string error |
| `ClaudeTypes.DecodeToolChoiceRejectsOtherValues` | src/types/claude.rs:726-728 | a value that is neither a string nor an object is refused |
| `ClaudeTypes.DecodeToolChoiceObject` | src/types/claude.rs:654-731 | an object decodes to a choice iff its `type` tag names it, a `tool` choice's `name` is present, and the parallel-use flag is absent, `null` or a boolean; other fields are ignored |
| `ClaudeTypes.DecodeEncodeToolChoice` | src/types/claude.rs:627-731 | every choice, serialised, decodes back to itself |
| `ClaudeTypes.TextBlock` | src/types/claude.rs:852-860 | `ContentBlock::text` is an uncached, uncited text block whose counted text is the given text |
| `ClaudeTypes.ImageBlock` | src/types/claude.rs:863-883 | `image` is an uncached image block carrying `data`, tagged `url` or `file` when asked and `base64` with the media type otherwise |
| `ClaudeTypes.ImageBlockSelectsSource` | src/types/claude.rs:863-883 | `image` gives `Url{data}` for `url`, `File{data}` for `file`, `Base64{media_type, data}` otherwise, always with no cache control |
| `ClaudeTypes.ImageBlockFromSource` | src/types/claude.rs:863-883 | every image source is what `image` builds from its own tag and payload |
| `ClaudeTypes.NewText` | src/types/claude.rs:831-849 | `new_text` keeps the role, and the message's counted text is the given text |
| `ClaudeTypes.NewBlocks` | src/types/claude.rs:831-849 | `new_blocks` keeps the role and the blocks, and the message's counted text is that of the blocks |
| `ClaudeTypes.ConstructorsKeepText` | src/types/claude.rs:833-860 | `ContentBlock::text` has no cache control or citations; `new_text` and `new_blocks` keep the role, and their text is what they were given |
| `ClaudeTypes.FromRequired` | src/types/claude.rs:165-174 | the conversion keeps the three required fields and sets no optional field |
| `ClaudeTypes.FromRequiredBare` | src/types/claude.rs:165-174 | the conversion copies model, messages and `max_tokens` and sets no optional field |
| `ClaudeTypes.BareIsFromRequired` | src/types/claude.rs:165-174 | every request with no optional field set is the conversion of its required fields |
| `ClaudeTypes.WithSystem` | src/types/claude.rs:182-226 | `with_system` stores the prompt as a JSON string and changes no other field |
| `ClaudeTypes.WithStopSequences` | src/types/claude.rs:182-226 | `with_stop_sequences` stores its argument and changes no other field |
| `ClaudeTypes.WithStream` | src/types/claude.rs:182-226 | `with_stream` stores its argument and changes no other field |
| `ClaudeTypes.WithTopK` | src/types/claude.rs:182-226 | `with_top_k` stores its argument and changes no other field |
| `ClaudeTypes.WithTools` | src/types/claude.rs:182-226 | `with_tools` stores its argument and changes no other field |
| `ClaudeTypes.WithToolChoice` | src/types/claude.rs:182-226 | `with_tool_choice` stores its argument and changes no other field |
| `ClaudeTypes.WithMetadata` | src/types/claude.rs:182-226 | `with_metadata` stores its argument and changes no other field |
| `ClaudeTypes.BuilderSetsOnlyItsField` | src/types/claude.rs:182-226 | each `with_*` builder sets its own field and changes no other field, required or optional |
| `ClaudeTypes.BuilderValues` | src/types/claude.rs:182-226 | each builder stores `Some` of its argument; `with_system` stores a JSON string |
| `ClaudeTypes.BuildersCommute` | src/types/claude.rs:182-226 | builders for different fields commute; for the same field the later call wins |
| `ClaudeTypes.BuildSetsListedFields` | src/types/claude.rs:165-226 | `new` followed by a chain of builders sets exactly the fields named in the chain and keeps the required ones |
| `ClaudeTypes.JoinLines` | src/types/claude.rs:131-145 | the `join("\n")` of the counted texts: the parts with one line break between neighbours (a definition; `SplitJoin` and `JoinSplit` prove it invertible) |
| `ClaudeTypes.FirstNewline` | src/types/claude.rs:131-145 | the position found is the first line break |
| `ClaudeTypes.SplitJoin` | src/types/claude.rs:131-145 | lines without line breaks are recovered from their `join("\n")` |
| `ClaudeTypes.JoinSplit` | src/types/claude.rs:131-145 | splitting at line breaks and joining with `"\n"` gives the string back |
| `ClaudeTypes.BlocksText` | src/types/claude.rs:136-142 | the `collect::<String>()` of a block list: each text block's text, other blocks nothing (a definition; `BlocksTextAppend` and `BlocksTextOnlyText` state its properties) |
| `ClaudeTypes.MessageText` | src/types/claude.rs:134-143 | a message's counted text: its string content as is, or the text of its blocks (a definition; `ConstructorsKeepText` relates it to the constructors) |
| `ClaudeTypes.TextBlocksOnly` | src/types/claude.rs:136-142 | the filter keeps exactly the text blocks of the list |
| `ClaudeTypes.BlocksTextAppend` | src/types/claude.rs:136-142 | the text of a block list distributes over concatenation |
| `ClaudeTypes.BlocksTextOnlyText` | src/types/claude.rs:136-142 | only `Text` blocks contribute; dropping every other block leaves the text unchanged |
| `ClaudeTypes.SystemText` | src/types/claude.rs:126-130 | a string system prompt counts as itself; a missing prompt or one that is neither string nor array counts as empty |
| `ClaudeTypes.ArrayTextAppend` | src/types/claude.rs:126-130 | the text of a system array distributes over concatenation |
| `ClaudeTypes.SystemArrayOfTexts` | src/types/claude.rs:126-130 | a system array of text objects reads as the concatenation of their texts |
| `ClaudeTypes.CountRequestTokens` | src/types/claude.rs:124-148 | the count is the system text's count plus the joined messages' count, modulo 2^32 |
| `ClaudeTypes.RequestCount` | src/types/claude.rs:124-148 | the request count is the system text's count plus the joined messages' count when the sum fits in `u32`; the messages are recovered line by line from the counted text |
| `ClaudeTypes.CountResponseTokens` | src/types/claude.rs:763-782 | the count is the token count of the blocks' texts joined by line breaks, modulo 2^32, and exact when it fits |
| `ClaudeTypes.ResponseBlockText` | src/types/claude.rs:769-777 | a response block's counted text: a text block's text, a base64 image's data, and nothing for any other block (a definition; `ResponseLines` and `TextResponseText` use it) |
| `ClaudeTypes.ResponseLines` | src/types/claude.rs:764-781 | the response's counted text is one line per block: text, base64 image data, or empty |
| `ClaudeTypes.TextResponse` | src/types/claude.rs:784-798 | `text()` is an assistant `message` with the given id, model and usage, no stop reason, whose counted text is the content |
| `ClaudeTypes.TextResponseText` | src/types/claude.rs:786-797 | `CreateMessageResponse::text` is an assistant message of type `message` whose counted text is exactly its content |

## Left out

- Persistence (`save`, src/services/cookie_actor.rs:57-78) writes the configuration global and saves it from a spawned task. The model returns what decides the call instead: `Collect`, `Accept`, `ExhaustCookie` and `DiscardCookie` return a `saved` flag that is true exactly when the source calls `save`; the source saves after `RefreshUsageWindows` exactly when its `changed` flag holds (src/services/cookie_actor.rs:372-374, 383-385), and after `Delete` exactly when its result is `Ok` (src/services/cookie_actor.rs:293-311).
- Logging (`log`) is not modelled.
- The actor machinery is not modelled: `handle`, `post_stop`, `CookieActorHandle` and the periodic `CheckReset` timer. They are message passing around the handlers above.
- The sticky cache's eviction policy (capacity 1000, one hour idle) is not modelled. Any entry may be dropped at any time through `Evict`.
- `CookieActor.CookieActorState.Accept`: the source checks for duplicates against the configuration global. The model passes in the known cookie strings as `known`.
- The bodies of `CookieStatus::reset` and `reset_window_usage` live in the configuration module, which is not part of this model. They are the functions of `StatusOps`, and the model assumes only that neither changes the cookie string and that `reset_window_usage` keeps the cooldown.
- `UsageBreakdown` has only the two counters the model needs. `Reason` keeps `NormalPro`, `Free`, `Null`, `Restricted` and `TooManyRequest`. The other variants are represented by `Other(name)`, since `collect` treats them all alike.
- Clock values and window lengths are unbounded integers. `now + window_secs` does not overflow `i64` here.
- The tokenizer (`o200k_base`) is the parameter `tokens`. The count passes through Rust's `as u32` casts, and the final `+` wraps around, as in a release build (a debug build would panic on overflow).
- `ClaudeTypes.RequestCount`: it states the exact sum only when the sum fits in 32 bits. The wrapped value above that is stated by `ClaudeTypes.CountRequestTokens` (the sum modulo 2^32).
- serde itself is not modelled. Serialisation is modelled only for `tool_choice`, and deserialisation only for `tool_choice` and `max_tokens`. Other JSON-valued fields (tools, tool inputs, document sources) are opaque values.
- JSON numbers are whole numbers.
- When a `tool_choice` object has several problems, serde may report a different one first than the model does.
- The floating-point fields `temperature` and `top_p`, and their builders `with_temperature` and `with_top_p`, are not modelled.
- Stream events, `count_tokens` request/response types and the tool definition variants are not modelled. They are declarations with no logic.
- The response identifier, a fresh UUID in the source, is a parameter of `TextResponse`.
- `src/api/misc.rs`, `src/router.rs` and `src/api/mod.rs` are not part of this model. They hold HTTP handlers, network calls, route wiring and re-exports.
