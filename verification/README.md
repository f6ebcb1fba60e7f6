# Verification of shared ownership, sorting and buffer algorithms of the `alloc` library

This project models, in Dafny, the parts of the Rust `alloc` library whose correctness does not show in any
single function, and proves what they are for.

- **Reference counting between threads** (`Arc*.dfy`). `Arc`, `Weak`, `UniqueArc` and `Arc::new_cyclic_in` are
  one state machine. A step is one atomic access or one access to a value; any number of calls on any number of
  handles interleave in any order. `compare_exchange_weak` may fail spuriously. The machine is `ArcMachine`; the
  sums over everything that refers to an allocation are `ArcLedger`; the invariant is `ArcInvariant`; its
  preservation is proved call by call in `ArcSteps`, `ArcLockSteps`, `ArcMutSteps` and `ArcWeakSteps`. The results are
  in `ArcSafety`, `ArcOrigins`, `ArcRuns`, `ArcUpgrade`, `ArcRevival`, `ArcOutcomes` and `ArcIntoInner`; what each call may
  answer, with anything in between its accesses, in `ArcLoops`, `ArcUniqueness` and `ArcAnswers`; two concrete runs in
  `ArcWitnesses`.
- **The sequential counterpart** (`Rc*.dfy`, `ArcRc*.dfy`). `Rc`'s allocation is a class whose methods change
  the counters in place. Each method is proved against a function on one allocation; those functions make up
  the calls of a whole program, and each such call agrees with an undisturbed call of the `Arc` machine.
  `RcAnswers` says what the answers mean in terms of the handles of the program.
- **`sort_by_cached_key`** (`SortByCachedKey`): a permutation applied by swaps while it is being overwritten.
- **Buffers**: `[T]::repeat` (`Repeat`), `join_generic_copy` (`Join`), `String::retain` and `String::remove_matches`
  (`StringBuf`, `StringSpecs`), `str::replace` (`Replace`), `str::to_lowercase` (`Lowercase`, `FinalSigma`). Bytes and characters are
  related by `Utf8` (sections 3 and 4 of RFC 3629). Uninitialised memory is in the model (`Memory`).
- **`Global`** (`GlobalAlloc`): all branches of growing and shrinking refine one function on heaps.

`dafny verify dfyconfig.toml` checks everything. `Reachable`, `Runs` and `Exec` (in `ArcSafety` and `ArcMachine`)
quantify over every run of every program; `maxRef` stands for isize::MAX and is not fixed.

## What the code does not do

- `library/alloc/src/sync.rs:3285` says that an observed strong count of 0 is permanent. It is not:
  `make_mut` stores 1 again when it finds itself alone (`ArcWitnesses.StrongMayComeBack`). It is permanent if and only
  if, in a program that can go on, no such call is in flight that has found itself alone or still may
  (`ArcRevival.ZeroIsPermanent`). What `upgrade`
  needs, and what always holds, is that it is permanent as long as a Weak that could observe it exists
  (`ArcUpgrade.NoResurrection`).
  "After publication" is about the load: an upgrade that loads 0 while a `UniqueArc` or the closure of
  `new_cyclic_in` still has the value says nothing about later ones.
- `library/alloc/src/string.rs:1685` says that the spare bytes are at least as many as the character written.
  They need not be (`StringBuf.SpareMayBeShort`): it is so if and only if the characters removed so far took at
  least that many bytes (`StringBuf.OverlapsExactlyWhenWider`). The write is right all the same, because it ends
  before the next character to be read (`StringBuf.HalfKeeps`).
- `map_uppercase_sigma` cites the condition Final_Sigma of section 3.13 of the Unicode Standard. The code skips
  every case-ignorable character, also one that is cased as well, so it differs after U+0345 alone. When they
  agree is `FinalSigma.CodeVersusStandard`.

## Steps and their source

The functions of `ArcMachine` and `RcSpec` have no contract of their own; the table below names the theorems about them.

- `DoNew` 428-437, `DoCloneArc` 2399-2433, `DoDropArc` and `DoDestroy` 2830-2879 and 2132-2144, `DoStrongCount` 2026-2030
  and 3315-3317, `DoWeakCount` 1996-2001, `DoDowngrade` and `DoDowngradeLoop` 1936-1971, `DoIsUnique`, `DoUniqueLoad` and
  `DoUniqueStore` 2777-2799, `DoGetMut`, `DoGetMutLoad` and `DoGetMutStore` the same inside 2639-2650, `DoMakeMut` and the
  other `DoMake` functions 2515-2573, `DoTryUnwrap` 1115-1118, `DoIntoInner` 1230-1239, `DoMoveOut` 1119-1130 and 1250-1255,
  `DoReleaseWeak`, `DoDropWeak` and `DoDealloc` 3497-3523, `DoCloneWeak` 3429-3445 and 4853-4871, `DoUpgrade` and
  `DoUpgradeLoop` 3279-3308, `DoWeakCountOfWeak` and `DoWeakCountLoad` 3332-3350, `DoNewCyclic`, `DoCyclicInit` and
  `DoCyclicPublish` 891-949, `DoNewUnique`, `DoUniqueWrite` and `DoIntoArc` 4770-4809, all in `library/alloc/src/sync.rs`.
- `RcSpec.RcStep` is one call of `library/alloc/src/rc.rs`: `RcClone` 2511-2516, `RcNewWeak` 1772-1780, 3702-3707 and
  4417-4425, `RcDrop` 2484-2491, `RcUpgrade` 3542-3556, `RcGetMut` 1906-1938, `RcMakeMut` 2084-2121, `RcTryUnwrap` and
  `RcIntoInner` 1054-1107, `RcWeakCountOfWeak` 3572-3582, `RcDropUnique` 4456-4469.

## Model

The results come first; the last rows are the single steps behind `ArcWeakSteps.StepInv`.

| member | source | states |
|---|---|---|
| ArcWeakSteps.StepInv | library/alloc/src/sync.rs:391-397 | one inductive invariant ties both counters, the value and the memory of every allocation to what all handles and all calls in flight hold; every step of every call keeps it |
| ArcWeakSteps.ExecInv | library/alloc/src/sync.rs:391-397 | the invariant holds after every run of every interleaving |
| ArcSafety.CountersCount | library/alloc/src/sync.rs:391-397 | in every reachable state `strong` is the number of strong owners; `weak` is the number of explicit Weak handles plus one for the implicit weak reference, which at most one party holds once the strong owners are gone; while locked, `weak` is usize::MAX and there is no explicit Weak |
| ArcSafety.CountersDoNotWrap | library/alloc/src/sync.rs:50-56 | with fewer than isize::MAX threads each counter is at most MAX_REFCOUNT + 1 plus the number of threads between an over-limit `fetch_add` and their abort, and `weak` reads usize::MAX if and only if it is locked |
| ArcSafety.MemorySafe | library/alloc/src/sync.rs:2132-2144 | no access ever hits freed memory or a missing value; a value leaves its allocation at most once (dropped, handed out, or moved by `make_mut`), memory is freed at most once and only afterwards |
| ArcSafety.HandlesSeeTheValue | library/alloc/src/sync.rs:891-949 | a handle at rest, also one that came from `new_cyclic_in` or `UniqueArc`, always finds an initialised value in live memory |
| ArcSafety.NothingLeaks | library/alloc/src/sync.rs:3497-3523 | once nothing refers to an allocation, its value has left it exactly once and its memory is freed exactly once |
| ArcSafety.MutIsAlone | library/alloc/src/sync.rs:2639-2650 | while a `&mut T` is out, no other handle of any kind and no other call in flight refers to the allocation |
| ArcSafety.MutShowsItsValue | library/alloc/src/sync.rs:2639-2650 | the holder of `&mut T` sees the value it wrote last, and `strong` is 1 |
| ArcSafety.UniquenessIsExact | library/alloc/src/sync.rs:2777-2799 | under the lock, whoever holds it: there is no Weak, and `strong` reads 1 if and only if there is one strong owner (what the callers then answer is the next rows) |
| ArcUniqueness.IsUniqueAtOnce | library/alloc/src/sync.rs:2777-2786 | `is_unique` answers false at once if and only if there is a Weak or another check holds the lock |
| ArcUniqueness.IsUniqueOverRun | library/alloc/src/sync.rs:2785-2798 | otherwise it answers, after any interleaving, whether there was one strong owner and no Weak in the state in which it loaded `strong` |
| ArcUniqueness.GetMutOverRun | library/alloc/src/sync.rs:2639-2650 | `get_mut` gives `&mut T` or nothing by the same rule, over any interleaving |
| ArcUniqueness.IsUniqueAnswer | library/alloc/src/sync.rs:2777-2799 | undisturbed, `is_unique` answers whether the handle is the only one of any kind |
| ArcSafety.LockIsStable | library/alloc/src/sync.rs:3429-3445 | between taking the lock and giving it back, no step of anybody else changes `weak`, although `Weak::clone` and `Weak::drop` ignore the lock |
| ArcSafety.CallKept | library/alloc/src/sync.rs:1936-1971 | a call in flight is changed only by its own steps |
| ArcRuns.SharedValueIsFixed | library/alloc/src/sync.rs:2515-2573 | whatever any thread does, `make_mut` included, the value behind an Arc handle at rest does not change |
| ArcRuns.GoneStaysGone | library/alloc/src/sync.rs:2132-2144 | a value that has left its allocation never comes back |
| ArcRuns.StepHarmless | library/alloc/src/sync.rs:2515-2573 | no step changes a value unless the one who takes it owns that value, or is the step that publishes or restores it; and only publication and the last branch of `make_mut` bring a strong count back from 0 |
| ArcOrigins.StepExplained | library/alloc/src/sync.rs:2515-2573 | for every step, where each new or changed handle or call comes from: who can begin to destroy, move, return or publish a value |
| ArcUpgrade.NoResurrection | library/alloc/src/sync.rs:3279-3308 | a Weak that sees a published strong count of 0, and every Weak cloned from it in any continuation, never upgrades again; an upgrade of it already in flight fails too |
| ArcUpgrade.ExpiredRun | library/alloc/src/sync.rs:3284-3292 | the invariant behind it: as long as one Weak of that lineage exists, the strong count stays 0 |
| ArcLoops.UpgradeOverRun | library/alloc/src/sync.rs:3279-3308 | over any interleaving `upgrade` answers None only if the strong count was 0 at some time since the call began, panics only if it was over the limit at some time, gives a handle only while there is a strong reference and then adds one, and otherwise goes on |
| ArcLoops.UpgradeCompletes | library/alloc/src/sync.rs:3297-3307 | with nothing in between, at most two rounds that do not fail spuriously end it: with a handle if the count and the load in hand are neither 0 nor over the limit |
| ArcLoops.DowngradeOverRun | library/alloc/src/sync.rs:1936-1971 | over any interleaving `downgrade` gives a Weak, one more than before, or panics, and that only if the unlocked weak count was over the limit at some time since the call began; otherwise it goes on |
| ArcLoops.DowngradeCompletes | library/alloc/src/sync.rs:1944-1970 | with nothing in between, at most two rounds that do not fail spuriously end it: with a Weak if the count is not locked and not over the limit |
| ArcLoops.LoadWasTrue | library/alloc/src/sync.rs:1940-1967 | what a call that loops has in hand was the counter in some state since it began |
| ArcUpgrade.DeadStep | library/alloc/src/sync.rs:2515-2573 | exactly one kind of step takes a published strong count away from 0: the last access of a `make_mut` that has found itself alone |
| ArcRevival.ZeroIsPermanent | library/alloc/src/sync.rs:3284-3286 | a published 0 stays 0 in every continuation if and only if no `make_mut` is in flight that has found itself alone or still may |
| ArcRevival.CanRestore | library/alloc/src/sync.rs:2526-2568 | the other direction: while such a `make_mut` is between its two accesses, the calls that borrow Weak handles can be ended and all those handles dropped, and then it restores the count |
| ArcWitnesses.StrongMayComeBack | library/alloc/src/sync.rs:3284-3286 | a run in which an upgrade reads a published 0 and the count is 1 again later: the source's remark that an observed 0 is permanent is true only while a Weak is there |
| ArcOutcomes.MakeMutDelivers | library/alloc/src/sync.rs:2515-2573 | from the first access of `make_mut` to the moment it returns, through any interleaving: the caller then has the only reference of any kind to an allocation that shows the old value or a clone of it |
| ArcOutcomes.MakingRun | library/alloc/src/sync.rs:2515-2573 | a `make_mut` keeps the value it began with in mind through every interleaving and ends by handing it out |
| ArcIntoInner.IntoInnerHandsOver | library/alloc/src/sync.rs:1230-1255 | if no handle to an allocation is dropped or given to `make_mut`, then when all strong owners are gone the value was never dropped in place, and exactly one call has answered with it or is about to |
| ArcIntoInner.ExactlyOneAnswer | library/alloc/src/sync.rs:1230-1255 | when the last call has returned, the number of calls that answered with the value, counted over the whole run, is one |
| ArcOutcomes.UnwrapMovesTheValue | library/alloc/src/sync.rs:1115-1130 | the access of a successful `try_unwrap` or `into_inner` that moves the value out finds it |
| ArcOutcomes.UnwrapAnswers | library/alloc/src/sync.rs:1230-1255 | that one call keeps the value through every interleaving until it answers with it |
| ArcWitnesses.TryUnwrapMayLose | library/alloc/src/sync.rs:1115-1130 | a run of two `try_unwrap` that are both refused, after which the value is dropped in place exactly once and handed to nobody |
| ArcOutcomes.ArcWeakCountIsExact | library/alloc/src/sync.rs:1996-2001 | `Arc::weak_count` is the number of explicit Weak handles at the moment of its load, also while the count is locked |
| ArcOutcomes.WeakCountOverRun | library/alloc/src/sync.rs:3332-3350 | `Weak::weak_count`, which loads two counters at two times with anything in between, answers 0 if there was no strong reference at the second load, and otherwise the number of Weak handles in the state of the first |
| ArcAnswers.StrongCountAnswer | library/alloc/src/sync.rs:2026-2030 | `strong_count` is the number of strong owners, on an Arc and on a Weak |
| ArcAnswers.CloneAnswer | library/alloc/src/sync.rs:2399-2433 | `clone` gives a handle if there are at most MAX_REFCOUNT strong owners, and else goes to abort |
| ArcAnswers.CloneWeakAnswer | library/alloc/src/sync.rs:3429-3445 | the same for `Weak::clone` and `UniqueArc::downgrade`, by the number of weak references |
| ArcAnswers.DropAnswer | library/alloc/src/sync.rs:2830-2879 | `drop` is over at once unless the handle was the only strong owner, and then goes on to destroy the value |
| ArcAnswers.DropWeakAnswer | library/alloc/src/sync.rs:3497-3523 | `Weak::drop` is over at once unless it was the last reference of any kind, and then goes on to free the memory |
| ArcAnswers.TryUnwrapAnswers | library/alloc/src/sync.rs:1115-1130 | `try_unwrap` gives the handle back and changes nothing unless it was the only strong owner |
| ArcAnswers.IntoInnerAnswer | library/alloc/src/sync.rs:1230-1255 | `into_inner` answers None unless the handle was the only strong owner |
| ArcAnswers.ReadsWhatWasWritten | library/alloc/src/sync.rs:2515-2573 | a value given to `new`, or written through `&mut T` or a UniqueArc, is what every later read through that handle returns, whatever other handles and calls do |
| Rc.RcInner.TryUnwrap | library/alloc/src/rc.rs:1054-1075 | the value is returned exactly when this is the only strong handle; otherwise nothing changes |
| Rc.RcInner.IntoInner | library/alloc/src/rc.rs:1105-1107 | a refused handle is dropped, and the value stays |
| Rc.RcInner.MakeMut | library/alloc/src/rc.rs:2084-2121 | clone, steal or keep: which allocation the handle refers to afterwards, what is in it, and what is left of the old one |
| RcAnswers.DropEffect | library/alloc/src/rc.rs:2484-2491 | dropping an `Rc` destroys the value exactly when it is the last strong handle, frees the memory exactly when it is the last handle of any kind, and touches nothing else |
| RcAnswers.DropWeakEffect | library/alloc/src/rc.rs:3674-3686 | dropping a `Weak` leaves the value alone and frees the memory exactly when it is the last handle of any kind |
| RcAnswers.DropUniqueEffect | library/alloc/src/rc.rs:4456-4469 | dropping a `UniqueRc` destroys the value and frees the memory exactly when there is no Weak |
| RcAnswers.UpgradeAnswer | library/alloc/src/rc.rs:3542-3556 | `upgrade` gives a handle exactly when a strong one exists |
| RcAnswers.WeakCountAnswer | library/alloc/src/rc.rs:1796-1798 | `Rc::weak_count` is the number of Weak handles |
| RcAnswers.WeakCountOfWeakAnswer | library/alloc/src/rc.rs:3572-3582 | `Weak::weak_count` is the number of Weak handles, or 0 when there is no strong one |
| RcAnswers.GetMutAnswer | library/alloc/src/rc.rs:1906-1938 | `get_mut` succeeds exactly when no other handle of any kind exists |
| RcAnswers.TryUnwrapAnswer | library/alloc/src/rc.rs:1054-1075 | `try_unwrap` gives the value out exactly to the only strong handle, and gives the handle back otherwise |
| RcAnswers.PublishEffect | library/alloc/src/rc.rs:870-915 | before `new_cyclic_in` publishes its value no Weak of it upgrades; afterwards every one does, and finds the value |
| ArcRcAgreement.AgreeDrop | library/alloc/src/rc.rs:2484-2491 | `Rc::drop` and an undisturbed `Arc::drop` come to the same |
| ArcRcAgreement.AgreeTryUnwrap | library/alloc/src/rc.rs:1054-1075 | the same for `try_unwrap` |
| ArcRcAgreement.AgreeIntoInner | library/alloc/src/rc.rs:1105-1107 | the same for `into_inner`, although `Rc` goes through `try_unwrap` and `Arc` does not |
| ArcRcAgreement.AgreeDowngrade | library/alloc/src/rc.rs:1772-1780 | the same for `downgrade`, although `Arc` needs a loop |
| ArcRcAgreement.AgreeUpgrade | library/alloc/src/rc.rs:3542-3556 | the same for `upgrade` |
| ArcRcAgreement.AgreeWeakCount | library/alloc/src/rc.rs:3572-3582 | the same for `Weak::weak_count` |
| ArcRcAgreement.AgreeGetMut | library/alloc/src/rc.rs:1936-1938 | the same for `get_mut`, although `Arc` locks and `Rc` compares two counters |
| ArcRcAgreement.AgreeMakeSole | library/alloc/src/rc.rs:2084-2121 | `make_mut` without any other reference: `Arc` takes `strong` to 0 and back, `Rc` does nothing, and they come to the same |
| ArcRcRuns.AgreeMakeClone | library/alloc/src/rc.rs:2084-2121 | `make_mut` with other strong handles: the same allocations, values and counters |
| ArcRcRuns.AgreeMakeSteal | library/alloc/src/rc.rs:2084-2121 | `make_mut` with Weak handles only: the same |
| ArcRcAgreement.AgreeDropWeak | library/alloc/src/rc.rs:3674-3686 | `Weak::drop`: the same |
| ArcRcAgreement.AgreeDropUnique | library/alloc/src/rc.rs:4456-4469 | dropping a Unique handle: the same |
| ArcRcAgreement.AgreeCyclicInit | library/alloc/src/rc.rs:870-915 | the end of `new_cyclic_in`: the same |
| ArcRcRuns.CallAgrees | library/alloc/src/rc.rs:3742-3820 | every call both libraries have, below the limit, in every reachable state with nothing in flight |
| ArcRcAgreeing.AgreesExactlyBelowLimit | library/alloc/src/sync.rs:2399-2433 | they agree if and only if the counter that the call increments is at most MAX_REFCOUNT |
| ArcRcAgreeing.ArcAgreesWithRc | library/alloc/src/rc.rs:3742-3820 | for every sequence of calls below the limit: the same answers in the same order, the same handles, counters, values, drops and deallocations |
| ArcRcAgreeing.RcCountsHandles | library/alloc/src/rc.rs:285-289 | what `Rc` inherits: `strong` counts the strong owners and `weak` the Weak handles plus the implicit one, no access misses, a value leaves at most once, and when nothing refers to an allocation any more its value has left exactly once and its memory is freed exactly once |
| SortByCachedKey.SortByCachedKey | library/alloc/src/slice.rs:309-356 | the slice ends as the old slice read in the order of the stable sort by key |
| SortByCachedKey.SortWithIndices | library/alloc/src/slice.rs:316-335 | the same for either index type |
| SortByCachedKey.ApplyBySwaps | library/alloc/src/slice.rs:325-332 | applying a permutation by swaps, overwriting it on the way: slice[i] is old[p[i]] for every i |
| SortByCachedKey.FollowChain | library/alloc/src/slice.rs:326-329 | the inner loop terminates and finds where the element is now |
| SortByCachedKey.SwapOnce | library/alloc/src/slice.rs:330-331 | one swap and one rewritten entry keep the invariant: entries point forward, and every chain leads to its element |
| SortByCachedKey.ChainFinds | library/alloc/src/slice.rs:326-329 | the chain from p[i] ends at the place of element p[i], at or behind i |
| SortByCachedKey.StableOrderIsUnique | library/alloc/src/slice.rs:319-323 | there is only one order that sorts by (key, index) |
| SortByCachedKey.StableOrderIsStable | library/alloc/src/slice.rs:319-323 | inserting each element behind all that are not larger gives that order |
| SortByCachedKey.StableOrderSorts | library/alloc/src/slice.rs:319-324 | in that order the keys ascend, and equal keys keep the order of their elements |
| SortByCachedKey.SortedPairsAreStable | library/alloc/src/slice.rs:319-324 | any sort of the unique pairs gives that order, so an unstable sort will do |
| SortByCachedKey.NarrowingIsSafe | library/alloc/src/slice.rs:348-355 | narrowing the indices to a type of `width` values loses nothing if and only if there are at most `width` elements |
| Repeat.Repeat | library/alloc/src/slice.rs:509-565 | the n-fold concatenation, or a panic exactly when its length overflows or is more than `Vec::with_capacity` accepts; every copy stays in the capacity, reads only written elements and does not overlap its target |
| Repeat.DoubleUp | library/alloc/src/slice.rs:527-546 | after the doublings the buffer holds the largest power of two of repetitions that is at most n |
| Repeat.HoldsMore | library/alloc/src/slice.rs:548-563 | a copy of the first repetitions behind the others |
| Repeat.TimesAt | library/alloc/src/slice.rs:509-565 | the i-th element of the j-th repetition is the i-th element of the slice |
| Utf8.DecodesEncodedAll | library/alloc/src/string.rs:1653-1660 | decoding undoes encoding, for every string of characters |
| Utf8.EncodesDecodedAll | library/alloc/src/string.rs:1653-1660 | encoding undoes decoding, for every valid byte string |
| Utf8.EncodeInjective | library/alloc/src/string.rs:1653-1660 | a byte string encodes at most one string of characters |
| Utf8.EncodesInOrder | library/alloc/src/string.rs:1686-1693 | encodings compare bytewise as the characters do, which with the round trips leaves one encoding only |
| StringBuf.StringBuf.Retain | library/alloc/src/string.rs:1649-1700 | the buffer ends as the encoding of exactly the kept characters in order; if the predicate panics on a call, of those kept before it |
| StringSpecs.KeptIsSelection | library/alloc/src/string.rs:1649-1700 | the kept characters are exactly those whose call said so before the first panic, in order |
| StringBuf.HalfKeeps | library/alloc/src/string.rs:1679-1693 | writing a kept character back is right even where the write overlaps the place it was just read from |
| StringBuf.WorkMoves | library/alloc/src/string.rs:1670-1697 | one round of `retain`, kept or removed, keeps the invariant of the half-processed buffer |
| StringBuf.SpareIsDropped | library/alloc/src/string.rs:1677-1695 | before each call of the predicate there are exactly as many spare bytes as the characters removed so far took |
| StringBuf.OverlapsExactlyWhenWider | library/alloc/src/string.rs:1685-1693 | a kept character fits into the spare bytes if and only if it is no wider than all removed ones together |
| StringBuf.SpareMayBeShort | library/alloc/src/string.rs:1685-1686 | one spare byte for a character of three |
| StringBuf.StringBuf.RemoveMatches | library/alloc/src/string.rs:1572-1619 | the bytes outside the matches, in order: the same function of string and matches as `replace` with an empty replacement |
| StringBuf.CompactMoves | library/alloc/src/string.rs:1600-1614 | each overlapping copy leaves all bytes that are still to be read as they were |
| Replace.Replace | library/alloc/src/str.rs:305-337 | the bytes outside the matches with the replacement between them, on the fast path too |
| StringSpecs.ReplacedKeepsByte | library/alloc/src/str.rs:328-336 | every byte outside the matches is in the result, at its place |
| StringSpecs.ReplacedHasReplacement | library/alloc/src/str.rs:328-336 | the replacement is there for every match, at its place |
| StringSpecs.ReplacedLength | library/alloc/src/str.rs:328-336 | and nothing else is |
| Replace.FastPathAgrees | library/alloc/src/str.rs:308-321 | replacing byte by byte is the same as replacing the matches of that byte |
| Replace.ReplacedIsUtf8 | library/alloc/src/str.rs:328-336 | the result is UTF-8 when the matches lie on character boundaries |
| Join.JoinGenericCopy | library/alloc/src/str.rs:146-209 | every part that the elements gave the second time at the offset given by the lengths before it, the separator before every part but the first, and nothing else (nothing at all for no elements); or a panic, exactly when the reserved length overflows, is more than `Vec::with_capacity` accepts, or has been outgrown |
| Join.JoinedIsJoin | library/alloc/src/str.rs:84-103 | the join defined part by part is laid out so, for any number of parts |
| Join.ConsistentFits | library/alloc/src/str.rs:166-178 | elements that give the same slice twice fill the reserved buffer exactly |
| Join.ReservedLength | library/alloc/src/str.rs:166-178 | the checked sums panic exactly when the total length overflows |
| Join.CopyParts | library/alloc/src/str.rs:81-119 | copying into the reserved buffer panics exactly when the parts do not fit; otherwise everything written is what was given |
| Lowercase.ToLowercase | library/alloc/src/str.rs:433-465 | the encoding of the single-pass lower case of all characters, each capital sigma in the context of the whole string |
| Lowercase.LowerIsTableAnswers | library/alloc/src/str.rs:439-463 | decoded, that is for every character at its place the answer of the case table without its padding, and for a capital sigma U+03C2 at the end of a word and U+03C3 elsewhere, and nothing else |
| Lowercase.ExpansionIsAllButPadding | library/alloc/src/str.rs:450-462 | of an answer of the case table only padding is left out |
| Lowercase.AsciiLowerIsTheAlphabet | library/alloc/src/str.rs:436-436 | the fast pass maps the k-th capital letter to the k-th small one and nothing else |
| Lowercase.ConvertWhileAscii | library/alloc/src/str.rs:916-985 | exactly the longest ASCII prefix is converted, in chunks and then bytes, and the rest is untouched |
| Lowercase.ChunkIsAscii | library/alloc/src/str.rs:933-946 | the sum of the comparisons is N if and only if the whole chunk is ASCII |
| Lowercase.LoweringPrefix | library/alloc/src/str.rs:434-438 | the fast pass gives what the single pass would give for the prefix |
| Lowercase.SameContext | library/alloc/src/str.rs:441-448 | the context looked up at prefix_len + i is the context in the whole string |
| FinalSigma.CodeVersusStandard | library/alloc/src/str.rs:215-226 | when the code's test for a final sigma is the standard's: exactly when no character that is both cased and case-ignorable is skipped on a side where nothing cased follows it and that side decides |
| FinalSigma.SkipVersusStandard | library/alloc/src/str.rs:216-221 | skipping all case-ignorable characters and looking at the next misses exactly the cased ones among them |
| FinalSigma.DisjointTablesAgree | library/alloc/src/str.rs:215-226 | where no character is both, the code decides as the standard does |
| FinalSigma.IotaSubscriptDiffers | library/alloc/src/str.rs:215-226 | after U+0345 alone the standard sees the end of a word and the code does not |
| GlobalAlloc.Global.AllocImpl | library/alloc/src/alloc.rs:205-216 | a new block, zeroed if asked, or no block for no bytes; on failure the heap is unchanged |
| GlobalAlloc.Global.DeallocateImpl | library/alloc/src/alloc.rs:219-231 | the block is freed; a pointer to no bytes needs nothing |
| GlobalAlloc.Global.GrowImpl | library/alloc/src/alloc.rs:236-279 | all three branches give the heap of one specification, and leave it unchanged on failure |
| GlobalAlloc.Global.ShrinkImpl | library/alloc/src/alloc.rs:284-325 | the same specification for shrinking |
| GlobalAlloc.Global.AllocImplConst | library/alloc/src/alloc.rs:389-403 | allocating in constant evaluation, where zeroing is a separate write, comes to the same |
| GlobalAlloc.Global.GrowShrinkImplConst | library/alloc/src/alloc.rs:420-440 | the same specification for both in constant evaluation |
| GlobalAlloc.ReallocThenZero | library/alloc/src/alloc.rs:253-265 | zeroing the tail after reallocating |
| GlobalAlloc.AllocCopyFree | library/alloc/src/alloc.rs:272-277 | allocating, copying and freeing comes to the same as resizing in place |
| GlobalAlloc.ResizeMeans | library/alloc/src/alloc.rs:236-279 | what the specification says: the first min(old, new) bytes are kept, the tail is zero when asked, the old block is freed once, other blocks are unchanged, and no block is ever freed twice |
| GlobalAlloc.AllocMeans | library/alloc/src/alloc.rs:205-216 | allocating gives one new block of the right size, zeroed if asked, and touches no other |
| GlobalAlloc.FreeMeans | library/alloc/src/alloc.rs:219-231 | freeing takes one block away, for the first time, and touches no other |
| ArcSteps.NewInv | library/alloc/src/sync.rs:428-437 | `Arc::new` keeps the invariant |
| ArcSteps.NewCyclicInv | library/alloc/src/sync.rs:891-909 | `new_cyclic_in` up to the call of its closure: strong 0, weak 1, no value yet |
| ArcWeakSteps.CyclicInitInv | library/alloc/src/sync.rs:918-922 | writing the value of `new_cyclic_in` keeps the invariant |
| ArcWeakSteps.CyclicPublishInv | library/alloc/src/sync.rs:924-946 | publishing it turns the lent Weak into the implicit weak reference |
| ArcSteps.CloneArcInv | library/alloc/src/sync.rs:2399-2433 | `Arc::clone` keeps the invariant, over the limit too |
| ArcSteps.DropArcInv | library/alloc/src/sync.rs:2830-2879 | `Arc::drop` keeps the invariant: exactly one dropper goes on to destroy the value |
| ArcMutSteps.DestroyInv | library/alloc/src/sync.rs:2132-2144 | `drop_slow` destroys a value that is there and goes on to release the implicit weak reference |
| ArcSteps.IntoInnerInv | library/alloc/src/sync.rs:1230-1239 | the first access of `into_inner` keeps the invariant |
| ArcSteps.TryUnwrapInv | library/alloc/src/sync.rs:1115-1118 | the first access of `try_unwrap` keeps the invariant |
| ArcMutSteps.MoveOutInv | library/alloc/src/sync.rs:1119-1130 | moving the value out keeps the invariant |
| ArcLockSteps.DowngradeInv | library/alloc/src/sync.rs:1936-1942 | the first load of `downgrade` keeps the invariant |
| ArcLockSteps.DowngradeLoopInv | library/alloc/src/sync.rs:1944-1970 | each round of `downgrade` keeps the invariant, also when it spins on the lock or fails spuriously (what it answers is `ArcLoops.DowngradeOverRun`) |
| ArcLockSteps.UpgradeInv | library/alloc/src/sync.rs:3279-3301 | the first load of `upgrade` keeps the invariant |
| ArcLockSteps.UpgradeLoopInv | library/alloc/src/sync.rs:3284-3307 | each round of `upgrade` keeps the invariant, whatever happened since its last load (what it answers is `ArcLoops.UpgradeOverRun`) |
| ArcLockSteps.IsUniqueInv | library/alloc/src/sync.rs:2777-2785 | taking the lock keeps the invariant |
| ArcLockSteps.UniqueLoadInv | library/alloc/src/sync.rs:2786-2789 | reading `strong` under the lock keeps the invariant |
| ArcLockSteps.UniqueStoreInv | library/alloc/src/sync.rs:2791-2795 | storing 1 back keeps the invariant: nothing else can have changed `weak` (what it answers is `ArcUniqueness.IsUniqueOverRun`) |
| ArcLockSteps.GetMutInv | library/alloc/src/sync.rs:2639-2640 | `get_mut` taking the lock keeps the invariant |
| ArcLockSteps.GetMutLoadInv | library/alloc/src/sync.rs:2786-2789 | `get_mut` learns under the lock whether it is the only owner |
| ArcLockSteps.GetMutStoreInv | library/alloc/src/sync.rs:2791-2795 | `get_mut` releases the lock and hands out `&mut T` only to the only owner |
| ArcSteps.MakeMutInv | library/alloc/src/sync.rs:2515-2526 | the compare-exchange at the start of `make_mut` keeps the invariant |
| ArcMutSteps.MakeCloneInv | library/alloc/src/sync.rs:2526-2528 | allocating the clone keeps the invariant |
| ArcMutSteps.MakeCloneInitInv | library/alloc/src/sync.rs:2526-2528 | writing the clone keeps the invariant and remembers which value it was made from |
| ArcMutSteps.MakeDropOldInv | library/alloc/src/sync.rs:2528 | dropping the old handle after cloning keeps the invariant, even if it has become the last one meanwhile |
| ArcMutSteps.MakeWeakLoadInv | library/alloc/src/sync.rs:2529 | loading `weak` after `strong` was set to 0 keeps the invariant: if it is 1, nobody else is left |
| ArcMutSteps.MakeStealInv | library/alloc/src/sync.rs:2546-2551 | allocating the second allocation of the stealing branch keeps the invariant |
| ArcMutSteps.MakeMoveInv | library/alloc/src/sync.rs:2552-2563 | moving the value over keeps the invariant |
| ArcMutSteps.MakeStoreInv | library/alloc/src/sync.rs:2564-2568 | storing 1 into `strong` keeps the invariant |
| ArcMutSteps.ReleaseWeakInv | library/alloc/src/sync.rs:3497-3506 | releasing the implicit weak reference keeps the invariant |
| ArcMutSteps.DropWeakInv | library/alloc/src/sync.rs:3497-3506 | `Weak::drop` keeps the invariant |
| ArcMutSteps.DeallocInv | library/alloc/src/sync.rs:3507-3523 | the memory is freed by the one call that took `weak` to 0 |
| ArcWeakSteps.AddWeak | library/alloc/src/sync.rs:3429-3445 | `Weak::clone` and `UniqueArc::downgrade` keep the invariant, over the limit too |
| ArcSteps.NewUniqueInv | library/alloc/src/sync.rs:4770-4783 | `UniqueArc::new_in`: a value with strong 0 and weak 1 |
| ArcWeakSteps.IntoArcInv | library/alloc/src/sync.rs:4795-4809 | `UniqueArc::into_arc` publishes the value, Weak handles or not |
| ArcWeakSteps.UniqueWriteInv | library/alloc/src/sync.rs:4894-4906 | writing through a UniqueArc keeps the invariant |
| ArcMutSteps.DropUniqueInv | library/alloc/src/sync.rs:4914-4921 | dropping a UniqueArc destroys the value and releases the implicit weak reference |

## Left out

- Weak memory: accesses are sequentially consistent; orderings and fences have no effect in the model.
- Liveness: `downgrade` may spin for ever on the lock, and `upgrade` on spurious failures; whether they do depends on the scheduler.
- A panic in the closure of `new_cyclic_in`: the lent Weak would then free memory that never held a value. In the model the closure returns or never does.
- Panics in the user's `Clone` and in destructors, and allocation failure inside the constructors of `Arc` and `Rc`: such a call simply never takes its next step.
- `Arc` is modelled on values and not as a class: several threads are inside several calls at once, so the state between two accesses of a call has to be part of the state. `Rc` is a class.
- Dangling `Weak::new`, `into_raw`/`from_raw`, `increment_strong_count`, `Arc<[T]>`, `map`/`try_map` and downcasts of the pointer types.
- `mem::forget` is not an action: a forgotten handle is one that no later step mentions, and it still counts.
- Trait forwarding, `Pin`, `Send`/`Sync`, task.rs, boxed.rs, borrow.rs, bstr.rs: one-line delegation.
- ArcRcRuns.CallAgrees: leaves out `is_unique`, which `Rc` does not make public.
- SortByCachedKey.SortByCachedKey: keys are integers, standing for the ranks of the keys of one slice in their total order; an `Ord` that is not a total order, and a key function that panics, are not modelled.
- The index vector of `sort_by_cached_key` is allocated before anything is changed; that it may be too large for the allocator, or for isize::MAX bytes, is not modelled.
- SortByCachedKey.SortUnstable: the core library's sort is not part of this model; an insertion sort stands for it, and only its contract is used.
- Pattern searchers: the matches come as a parameter, ordered and disjoint, and for a single-byte pattern exactly its occurrences.
- FinalSigma.MapUppercaseSigma: the character tables are a parameter, of which `to_lowercase` uses only that they agree with ASCII on ASCII.
- `to_uppercase`, `to_titlecase` and the other users of `convert_while_ascii`.
- Capacity growth of `Vec` and `String` when results are pushed: only buffers with a reserved capacity are arrays.
- `Layout` alignment and size rules, pointer provenance, zero-sized types; the foreign allocator is asked at most once by a call and either fails or gives a fresh block.
