# Verification of the Lua 5.1 runtime and the ack driver

This project models, in Dafny, the parts of the Amsterdam Compiler Kit whose invariants break and
are restored in the middle of an operation, and proves what each part is for. Sections of the Lua
5.1 Reference Manual are cited by number. `dafny verify dfyconfig.toml` checks everything.

* **Garbage collector** (`gc_*.dfy`, first/lua-5.1/lgc.c). The tri-colour mark and sweep collector
  with two whites, a gray-again list, weak tables, an atomic step, open upvalues and both write
  barriers, as a class whose methods are the collector's functions. Mutator programs reach objects
  through *paths* from the roots; they may allocate every kind of object, store through either
  barrier, capture and close variables, resize tables and stacks, and switch threads, with collector
  steps anywhere in between. The results: a program never gets hold of an object that is freed or
  doomed; no collector step changes what a program finds along a strong path; and a full
  collection, whatever the collector was doing, keeps exactly what the roots keep alive.
* **Tables** (`table_*.dfy`, ltable.c, lauxlib.c). The chained scatter table with Brent's variation
  over an arbitrary hash function, its array part, the mutual recursion of newkey, rehash, resize
  and set, traversal, length, and the references of luaL_ref. A table behaves as a finite map, also
  when the collector has marked keys as dead and after the error "table overflow".
* **Code generator** (`code_*.dfy`, lcode.c, lparser.c, lvm.c). Jump lists threaded through the code
  array, late patching of TESTSET, and the calls that subexpr makes for expressions of constants,
  variables, raw comparisons, `not`, `and` and `or`. The emitted code computes the expression.
* **Upvalues** (`upval_*.dfy`, lfunc.c). The sorted lists of open upvalues, one for each thread, and the
  doubly linked ring through all of them refine variables that are simply shared cells.
* **Patterns** (`pattern_*.dfy`, lstrlib.c). The backtracking matcher finds the first choice of
  repetitions, in greedy and lazy order, under a declarative meaning of patterns; and the text of
  a list of items matches what a simple recursive matcher over the items matches.
* **Quoting** (`quote.dfy`, lstrlib.c, llex.c). What `%q` writes the lexer reads back.
* **Precompiled chunks** (`dump_*.dfy`, ldump.c, lundump.c, lzio.c). Undumping undoes dumping,
  however the reader splits the bytes into blocks.
* **Sorting** (`sort.dfy`, ltablib.c). The quicksort sorts, in place, within logarithmic depth.
* **ack driver** (`ack_scan.dfy`, `ack_escape.dfy`, util/ack). The search for the best chain of
  transformations, and the five scans that text of a flag passes on its way to an argument.

Objects of the source that are updated in place are classes whose methods are proved against
functions of the old state; the properties are lemmas about those functions, or the `ensures` of
the methods themselves. Sequences of the collector's lists (`rootgc`, the string chains, the gray
lists) stand for the `next` and `gclist` links, and the mark bits are a map beside the heap.

## Model

| member | source | states |
|---|---|---|
| Gc.GlobalState.SingleStep | first/lua-5.1/lgc.c:556-607 | one collector step in any phase keeps the invariant of the collector and does what the phase calls for: marking darkens within any set closed under strong references and makes progress, sweeping frees only dead objects |
| Gc.GlobalState.ReallyMarkObject | first/lua-5.1/lgc.c:69-112 | marks the object and, at once, what userdata and upvalues lead to; keeps the tri-colour invariant with the object being scanned exempt, and marks nothing outside a closed set |
| Gc.GlobalState.TraverseTable | first/lua-5.1/lgc.c:158-197 | after the scan all strong parts of the table are marked, empty entries hold no collectable key, and the table is in the weak list iff it is weak |
| Gc.GlobalState.TraverseHeld | first/lua-5.1/lgc.c:203-238 | all that a closure or prototype holds is marked |
| Gc.GlobalState.TraverseStack | first/lua-5.1/lgc.c:256-271 | the stack below top and the globals of a thread are marked and the slots above top are empty |
| Gc.GlobalState.PropagateMark | first/lua-5.1/lgc.c:277-320 | takes one gray object off the list, scans it and restores the tri-colour invariant: black if its references can only change through a barrier, in grayagain if it is a thread, in weak if it is a weak table |
| Gc.GlobalState.PropagateAll | first/lua-5.1/lgc.c:323-327 | empties the gray list and ends, since every object turns gray at most once |
| Gc.GlobalState.RemarkUpvals | first/lua-5.1/lgc.c:515-522 | afterwards the value of every marked open upvalue is marked, though its thread may be unreachable |
| Gc.GlobalState.ClearTables | first/lua-5.1/lgc.c:351-375 | removes from weak tables exactly entries whose key or value is about to be collected, marking strings, so that no marked table refers to anything white |
| Gc.GlobalState.Atomic | first/lua-5.1/lgc.c:525-553 | from any state of the mark phase with no gray object: marks all that is reachable, nothing outside a closed set, clears weak tables and flips the white; what stays alive is what is marked or fixed |
| GcState.ScannedEdges | first/lua-5.1/lgc.c:62-67 | killing the keys of empty entries and clearing slots above top changes no reference that keeps an object alive and adds none |
| GcState.MarkedIsClosed | first/lua-5.1/lgc.c:525-545 | when nothing waits to be scanned the marked objects are closed under strong references |
| GcState.ClearedIsClosed | first/lua-5.1/lgc.c:542-549 | after the weak tables have been cleared no marked object refers to a white one, weakly or strongly |
| Gc.GlobalState.SweepStrings | first/lua-5.1/lgc.c:568-577 | one chain of the string table is left with its live strings only, all of the current white |
| Gc.GlobalState.SweepOpen | first/lua-5.1/lgc.c:407-428 | sweeping a thread frees its dead open upvalues, out of the thread's list and the ring, and whitens the others |
| Gc.GlobalState.SweepRoot | first/lua-5.1/lgc.c:578-588 | up to forty objects of the list are swept: dead ones freed, live ones white again, the rest untouched |
| Gc.GlobalState.FreeObject | first/lua-5.1/lgc.c:378-401 | a dead object leaves the heap; a dead thread closes its upvalues first, so that upvalues that live on keep their values |
| Gc.GlobalState.Close | first/lua-5.1/lfunc.c:96-112 | the upvalues of a thread at or above a level are closed with the values of their slots, or freed if dead, with the collector in any phase (luaC_linkupval included) |
| Gc.GlobalState.MarkRoot | first/lua-5.1/lgc.c:493-512 | starts a cycle: the main thread, its globals, the registry and the metatables of basic types are marked |
| GcInv.AccessibleIsLive | first/lua-5.1/lgc.h:65-87 | under the invariant everything the roots lead to, by weak references too, is allocated and is not dead |
| GcPaths.KeepsIs | first/lua-5.1/lgc.c:158-197 | what an object keeps alive is what can be read from its parts, but for keys and values of a table whose metatable says they are weak (section 2.10.2) and stack slots above the top |
| GcMutator.StoreTable | first/lua-5.1/lgc.c:674-682 | a store of a white value into a black table turns it gray and puts it in grayagain, otherwise nothing but the table changes; the invariant is kept in every phase |
| GcMutator.StoreForward | first/lua-5.1/lgc.c:661-671 | a store into a userdata, closure, prototype or closed upvalue keeps the invariant in every phase: in the mark phase the value is marked, in the sweep phases the owner is whitened |
| GcMutator.SetEntry | first/lua-5.1/lvm.c:134-148 | a value is stored in an entry that has its key, with the backward barrier |
| GcMutator.NewKey | first/lua-5.1/ltable.c:399-429 | a key takes an empty entry, with the backward barrier for the key |
| GcMutator.SetGlobals | first/lua-5.1/lapi.c:749-756 | the table of globals of a thread is replaced; no barrier is needed as threads are never black |
| GcMutator.New | first/lua-5.1/lgc.c:685-691 | a new object, at any free address, is linked white at the front of the list in any phase and is alive |
| GcMutator.NewUdata | first/lua-5.1/lstring.c:96-110 | a userdata is linked after the main thread, also when the sweep has passed there |
| GcMutator.GetString | first/lua-5.1/lstring.c:75-93 | a string is made or found in the string table; a dead one that the sweep has not reached comes back to life |
| GcMutator.FindUpval | first/lua-5.1/lfunc.c:53-79 | gives the one open upvalue of a live thread for a slot, made at its place in the list or brought back to life |
| GcOps.StoredReads | first/lua-5.1/lvm.c:451-456 | what is stored to a part of an object is what is read from it; for an open upvalue that is the stack slot it stands for |
| GcOps.StoredElsewhere | first/lua-5.1/lapi.c:697-760 | a store to a part of an object changes no other part of any object, upvalues apart |
| GcOps.FieldReads | first/lua-5.1/ltable.c:494-505 | a value stored under a key is read back from the node that had the key, or from the empty node that took it, under the key; all other parts of all objects read as before; otherwise nothing changes |
| GcOps.LaidReads | first/lua-5.1/ltable.c:297-324 | laying the used entries of a table out afresh brings each field to a new place and leaves no other field |
| GcOps.MadeReads | first/lua-5.1/lgc.c:685-691 | the slot that a new object was made for leads to it, and all other objects are as they were |
| GcOps.ClosedReads | first/lua-5.1/lfunc.c:96-112 | after upvalues have been closed every part of what is left reads as before |
| GcRun.Execute | first/lua-5.1/lapi.c:697-760 | each of the 24 instructions keeps the invariant and has exactly the effect on heap and roots that its operands call for, which no collector state changes; instructions whose operands do not fit change nothing; collector work is unseen |
| GcOps.StoreRead | first/lua-5.1/lapi.c:697-760 | after a store instruction the part that was named reads as the value that was named |
| GcOps.StoreOnly | first/lua-5.1/lapi.c:697-760 | and no other part of any object reads differently |
| GcOps.FieldDone | first/lua-5.1/lvm.c:134-148 | after tab[key] = src the node reads as the value of src, under the key |
| GcRun.Run | first/lua-5.1/lgc.c:610-632 | every program over all instructions, with collector steps and full collections anywhere in it, keeps the invariant: all that the mutator can reach, and all that it can name by a path, is allocated and not doomed |
| GcUnseen.StepUnseen | first/lua-5.1/lgc.c:556-607 | after any collector step every path through strong parts leads to the same value as before, and entries of weak tables whose keys and values last are still there |
| GcUnseen.AtomicUnseen | first/lua-5.1/lgc.c:525-553 | in particular the atomic step removes no entry of a weak table (section 2.10.2) whose key and value are strings, not collectable or named by strong paths |
| GcUnseen.SweptUnseen | first/lua-5.1/lgc.c:407-428 | nor does sweeping, which closes the upvalues of dead threads as it goes, change the value of any upvalue |
| GcReach.SweptReach | first/lua-5.1/lgc.c:407-428 | sweeping leaves the same objects reachable |
| GcFull.FullGc | first/lua-5.1/lgc.c:635-658 | from any state of the collector: terminates; an object survives if the roots keep it alive and, strings aside, only if; without weak tables a string survives iff it is reachable or fixed; survivors have the current white; unseen by the mutator |
| GcFull.MarkCycle | first/lua-5.1/lgc.c:646-651 | a mark phase without mutator steps ends with exactly the reachable objects alive, strings of weak tables aside |
| CodeVm.RunIsMachine | first/lua-5.1/lvm.c:545-585 | the outcome that the proofs speak of is reached by the machine, step by step |
| CodeLists.ListConcat | first/lua-5.1/lcode.c:185-196 | linking the last jump of one list to another gives the two lists in sequence |
| CodeGen.FuncState.FixJump | first/lua-5.1/lcode.c:80-91 | the jump leads to the target and the offset is never the one that means end of list |
| CodeGen.FuncState.Concat | first/lua-5.1/lcode.c:185-196 | the result lists exactly the jumps of both lists; only the last jump of the first is rewritten |
| CodeGen.FuncState.PatchListAux | first/lua-5.1/lcode.c:131-160 | each jump of the list leads to the value target if it was a TESTSET, to the default target otherwise, a TESTSET gets the register or becomes a TEST, and no other instruction changes |
| CodeGen.FuncState.Exp2Reg | first/lua-5.1/lcode.c:390-411 | the value of an expression, with both its jump lists, ends up in the register on every path |
| CodeGen.FuncState.JumpOnCond | first/lua-5.1/lcode.c:524-536 | a jump is emitted that is taken iff the value is true (false), with the NOT before it dropped |
| CodeGen.FuncState.GoIfTrue | first/lua-5.1/lcode.c:539-560 | control goes on when the expression is true, otherwise it leaves through the false list with the value kept |
| CodeGen.FuncState.GoIfFalse | first/lua-5.1/lcode.c:563-583 | control goes on when the expression is false, otherwise it leaves through the true list with the value kept |
| CodeGen.FuncState.CodeNot | first/lua-5.1/lcode.c:586-618 | the negated expression, with the lists swapped and their TESTSETs made TESTs |
| CodeGen.FuncState.CodeComp | first/lua-5.1/lcode.c:673-686 | a comparison and its jump; operands are exchanged for > and >= |
| CodeGen.FuncState.SubExpr | first/lua-5.1/lparser.c:828-853 | infix, operand and posfix in the order of the parser give code that represents the whole expression, whatever code came before |
| CodeRun.Expression | first/lua-5.1/lcode.c:414-419 | for every expression, constant table, and start registers the machine runs the emitted code to its end with the value of the expression (sections 2.5.2 and 2.5.3) in the next free register, and all registers below it as they were |
| CodeSem.Meanings | first/lua-5.1/lvm.c:509-585 | the values that expressions have: an upvalue or local is its own value, only nil and false are not true, and and or give one of their operands |
| CodeSem.Comparisons | first/lua-5.1/lvm.c:545-570 | a comparison gives the boolean of its operator, a > b that of b < a |
| CodeNil.StretchJudge | first/lua-5.1/lcode.c:35-56 | merging a LOADNIL into the one before it, or leaving it out at the start of a function, is correct when no jump leads in between |
| TableChain.NextInjective | first/lua-5.1/ltable.c:15-18 | no two used nodes have the same next node |
| TableChain.NextAcyclic | first/lua-5.1/ltable.c:15-18 | following next from a node never leads back to it |
| TableChain.Reached | first/lua-5.1/ltable.c:15-18 | every used node is on the chain that starts at the main position of its key |
| TableChain.InsertOk | first/lua-5.1/ltable.c:417-424 | a colliding key put in a free node keeps the chains when the other key is in its main position |
| TableChain.MoveOk | first/lua-5.1/ltable.c:408-416 | moving a key that is off its main position to a free node keeps the chains (Brent's variation) |
| TableCore.Table.GetSlot | first/lua-5.1/ltable.c:435-489 | finds the place of a key, in the array part or along its chain, iff it has one |
| TableCore.Table.GetFreePos | first/lua-5.1/ltable.c:382-390 | fails only if no node is free, and leaves no free node at or above lastfree |
| TableCore.Table.NewKey | first/lua-5.1/ltable.c:399-429 | the key gets a place and no entry is lost; with a free node there is no rehash; the error "table overflow", which needs 2^26 entries, leaves the table whole |
| TableCore.Table.Rehash | first/lua-5.1/ltable.c:333-349 | the table stands for the same map, also after an overflow; otherwise its array part has the best size for the live keys and the new one, and there is room for the new key, so no rehash happens within a rehash |
| TableCore.Table.Resize | first/lua-5.1/ltable.c:297-324 | re-inserting into parts large enough for the keys loses none and never fails, whatever the hash function; on overflow just the array part has grown |
| TableCore.OverflowKeeps | first/lua-5.1/ltable.c:297-308 | an array part that has grown before the error "table overflow" hides no entry: every node then has a value and no key of the hash part belongs in the larger array part |
| TableCore.Table.SetValue | first/lua-5.1/ltable.c:494-505 | stores as in a finite map; rejects nil and NaN as keys without change; refuses only a new key, only with 2^26 entries, and then the map is as before |
| TableCore.Table.KillKeys | first/lua-5.1/lgc.c:184-193 | the collector may mark keys of empty entries as dead without the table answering differently |
| TableSizes.ComputeSizes | first/lua-5.1/ltable.c:189-208 | the largest power of two n such that more than n/2 of the indices 1..n are in use, or 0, and the number of keys in 1..n |
| TableSizes.NumUseArray | first/lua-5.1/ltable.c:222-244 | counts the keys of the array part in each slice between powers of two |
| TableSizes.CeilLog2 | first/lua-5.1/lobject.c:54-69 | the least power of two that is not smaller, by the table of bit lengths |
| TableRun.Run | first/lua-5.1/ltable.c:435-529 | for every hash function and initial sizes, every program of sets, gets, array growth, lengths and visits of the collector gets all the answers of a finite map, also after a set that overflowed |
| TableNext.FindIndex | first/lua-5.1/ltable.c:137-159 | the place of a key, dead or not: of several nodes with the same key the first in the chain, which is the living one if there is one; an error iff there is none |
| TableNext.Next | first/lua-5.1/ltable.c:162-179 | the entry after the place of a key, or the end |
| TableNext.Traverse | first/lua-5.1/ltable.c:162-179 | repeated next, with any assignments to existing keys and visits of the collector that kill the keys of emptied entries in between, ends, meets no key twice, and meets every key that had a value whenever next looked (section 5.1, next) |
| TableNext.TraversalExact | first/lua-5.1/ltable.c:162-179 | the reason: places are visited in rising order, and each place that keeps a value is one of them |
| TableNext.LiveKey | first/lua-5.1/ltable.c:144-155 | an entry with a value comes before all dead copies of its key, so next goes on from the right place |
| TableLen.GetN | first/lua-5.1/ltable.c:560-576 | the result is a boundary (section 2.5.5): an index with a value, or 0, before one without |
| TableLen.UnboundSearch | first/lua-5.1/ltable.c:532-557 | doubling and bisection, or a linear search after overflow, end at a boundary in the hash part |
| TableRef.NewRegistry | first/lua-5.1/lauxlib.c:481-501 | in a new table no reference is in use |
| TableRef.Ref | first/lua-5.1/lauxlib.c:481-501 | a new reference is positive, was not in use, and keeps its value until it is released; the one that was released last is handed out first, and without any the reference comes from the length of the table; nil gets -1; after an overflow the references in use are as before |
| TableRef.Unref | first/lua-5.1/lauxlib.c:504-512 | releases just that reference, which becomes the first to be handed out again, or is lost if there is no room to begin a list |
| TableRef.FirstFree | first/lua-5.1/lauxlib.c:504-512 | the reference released last is kept at index 0 |
| PatternMeaning.RightUnique | first/lua-5.1/lstrlib.c:365-440 | the declarative meaning of a pattern has one right outcome: that of the first choices that do not fail |
| PatternMatch.MatchState.DoMatch | first/lua-5.1/lstrlib.c:365-440 | the matcher finds that outcome, or an error where the first such choices lead to one; on failure the captures are as before; the pattern left gets shorter with each call |
| PatternMeaning.BalancedIs | first/lua-5.1/lstrlib.c:281-298 | %bxy matches from an x to the first place where as many y as x have been seen, and not at all if there is none |
| PatternMatch.MatchState.MaxExpand | first/lua-5.1/lstrlib.c:301-313 | the largest number of repetitions after which the rest matches |
| PatternMatch.MatchState.MinExpand | first/lua-5.1/lstrlib.c:316-326 | the smallest number of repetitions after which the rest matches |
| PatternMatch.Find | first/lua-5.1/lstrlib.c:515-535 | the leftmost place where the pattern matches, with the captures of the first choices there, all inside the source; no match is reported iff there is none |
| PatternText.TextMatches | first/lua-5.1/lstrlib.c:365-440 | for every pattern written as a list of items (characters, classes, sets, each with any suffix, captures, back references, balanced texts, frontiers, the end mark) matching its text gives what backtracking over the items gives, at any place of a longer pattern |
| PatternText.FindText | first/lua-5.1/lstrlib.c:515-535 | searching with such a pattern, anchored or not, finds the first place where that backtracking does not fail, with its end and captures, or its error |
| PatternText.PlainRepeats | first/lua-5.1/lstrlib.c:417-431 | for a character that stands n times in a row: c* takes n, c+ takes n or fails if n is 0, c? takes one if there is one, and c- takes none |
| PatternText.CaptureAgain | first/lua-5.1/lstrlib.c:329-362 | (c*)%1 matches the largest even number of those, and captures half of them |
| PatternText.Marks | first/lua-5.1/lstrlib.c:367-397 | () captures the place, up to 32 captures, and $ matches at the end of the text only |
| PatternText.OneCharacter | first/lua-5.1/lstrlib.c:268-276 | a plain character matches itself, a dot any, [a-z] a character of the range, and [^a-z] one outside it |
| PatternText.ClassLetters | first/lua-5.1/lstrlib.c:226-242 | each letter of a class matches the characters of the C locale that it stands for, in upper case all others, and any other letter itself (section 5.4.1) |
| PatternText.BalancedText | first/lua-5.1/lstrlib.c:281-298 | %bxy takes the text up to where x and y first balance |
| PatternText.ElementsIs | first/lua-5.1/lstrlib.c:245-265 | the elements of a set, written one after the other, are read back as they were |
| Quote.QuoteRoundTrip | first/lua-5.1/lstrlib.c:696-723 | reading the quoted text gives the string back, whatever its characters (section 5.4, %q), and the text after it untouched, unless its lines overflow the line counter |
| Quote.LexState.ReadString | first/lua-5.1/llex.c:278-331 | the reader of the lexer finds the text, the rest and the line number, or the error, of a recursive definition of string literals |
| Quote.LetterRead | first/lua-5.1/llex.c:293-299 | a backslash and one of a, b, f, n, r, t, v reads as the character 7, 8, 12, 10, 13, 9, 11 (section 2.1), and the rest as it would alone |
| Quote.DigitsRead | first/lua-5.1/llex.c:306-316 | three digits, or one or two before another character, read as the character with that code, and are an error above 255 |
| Quote.LineEndsRead | first/lua-5.1/llex.c:300-301 | a backslash and a line end, of one character or two different ones, read as one newline and one line more |
| Quote.OthersRead | first/lua-5.1/llex.c:303-305 | every other character stands for itself behind a backslash, and without one but for the delimiter |
| Quote.EndRead | first/lua-5.1/llex.c:280-288 | only the delimiter ends a string; a line end or the end of the input is an error |
| Quote.QuoteAndRead | first/lua-5.1/lstrlib.c:696-723 | writing and then reading gives the string back iff its lines can be counted |
| DumpFormat.RoundTrip | first/lua-5.1/lundump.c:161-181 | loading what the format says of a function gives it back, with sources inherited where they were left out, and leaves the bytes after it |
| DumpFormat.Layout | first/lua-5.1/ldump.c:39-76 | the twelve bytes of the header, integers of four bytes with the low one first, strings behind their size with a zero at their end, and the tags of constants |
| DumpFormat.Limits | first/lua-5.1/lundump.c:161-190 | any other header is an error, a main function without a source is named =?, and functions nested 200 deep are refused |
| DumpLoad.LoadState.LoadChunk | first/lua-5.1/lundump.c:183-205 | on every stream of bytes the loader gives the function, or the error, of the format, and consumes the same bytes |
| DumpLoad.Zio.Read | first/lua-5.1/lzio.c:58-71 | n bytes over block boundaries, or the number missing |
| DumpLoad.Reload | first/lua-5.1/lundump.c:195-209 | a dumped function read back from any split into blocks is the same function iff it and all nested ones name their sources |
| DumpWrite.DumpState.DumpChunk | first/lua-5.1/ldump.c:153-164 | what is written is the format of the function, stripped of its debug information if wanted |
| Sort.MedianOfThree | first/lua-5.1/ltablib.c:194-214 | orders the ends and the middle, which serve as pivot and sentinels |
| Sort.Partition | first/lua-5.1/ltablib.c:216-244 | the pivot ends between smaller and greater elements, by loops that never leave the range nor raise an error |
| Sort.Auxsort | first/lua-5.1/ltablib.c:193-257 | for every strict weak order the range is sorted in place, a permutation of itself with the rest untouched, and at most log2(n) + 1 activations are nested |
| UpvalRing.RingInsert | first/lua-5.1/lfunc.c:72-78 | linking an upvalue behind the head keeps the ring |
| UpvalRing.RingRemove | first/lua-5.1/lfunc.c:82-86 | unlinking an upvalue keeps the ring of the others |
| UpvalState.LuaState.FindUpval | first/lua-5.1/lfunc.c:53-79 | the only open upvalue for a slot of a thread, made at its place in the list of the thread and in the ring of all if there was none |
| UpvalState.LuaState.Close | first/lua-5.1/lfunc.c:96-112 | every variable of the thread from the level on becomes one of its own for the closures that captured it, with its value, still shared among them; other threads are as before |
| UpvalState.Run | first/lua-5.1/lvm.c:427-456 | every program over any number of threads, of assignments, captures, reads and writes through closures of any thread, closings and returns, answers as if variables were shared cells |
| UpvalState.WriteIsRead | first/lua-5.1/lvm.c:427-456 | in the picture of cells, what is written through one closure is read through all that share the variable, and by no other |
| UpvalState.CapturedIsLocal | first/lua-5.1/lfunc.c:53-79 | a captured variable is the local variable as long as that lives: each sees what is written to the other |
| UpvalState.ClosedIsKept | first/lua-5.1/lfunc.c:96-112 | when the slot is given up the closure keeps the value, and does not see what is later put in the slot |
| AckScan.Satisfy | util/ack/scan.c:167-187 | a phase takes a suffix iff it is one of those listed for it and it is no preprocessor |
| AckScan.Scanner.Try | util/ack/scan.c:73-139 | all chains from a suffix are tried and the best one seen is kept |
| AckScan.Scanner.GetPath | util/ack/scan.c:30-44 | links up a best chain to the stop suffix by added priorities, fewer required phases and optimizers; fails iff there is none, even among those that pass the stop suffix; best among these too if no phases lead from the stop suffix back to it; output is kept of the last phase and of each one before a linker, besides what was kept before, and nothing changes on failure |
| AckScan.LooseIsChain | util/ack/scan.c:81-84 | stopping where the stop suffix first appears loses no chain iff no phases lead from it back to it |
| AckScan.StopsEarly | util/ack/scan.c:81-84 | two phases where a better chain through the stop suffix is missed |
| AckEscape.AssignedValue | util/ack/trans.c:641-664 | the value has the text, escaped, for each star after no backslash iff there is at most one; at a second one the copying runs beyond the text; the value is the one meant iff moreover no star comes after an escaped backslash |
| AckEscape.FilledIsMeant | util/ack/trans.c:645-659 | the value has the text for just the stars that are not escaped, in the sense of the other scans, iff no star comes after an even, positive number of backslashes |
| AckEscape.SparedStar | util/ack/trans.c:645-659 | a template whose star is left alone although the backslash before it is itself escaped |
| AckEscape.TwoStars | util/ack/trans.c:649-658 | the shortest template that makes the copying run beyond the text |
| AckEscape.DoAssign | util/ack/trans.c:622-669 | the variable named before = gets the value; a line without = and an empty variable name are rejected, two stars run over |
| AckEscape.SvChooses | util/ack/trans.c:247-380 | {name?text} gives the value of the variable if there is one and the text if not |
| AckEscape.SvReplaces | util/ack/trans.c:335-351 | {name} is replaced by the value of the variable, as it is |
| AckEscape.SvNothing | util/ack/trans.c:305-351 | a reference to a variable that is not set gives nothing, and one without a name is fatal |
| AckEscape.ScanVars | util/ack/trans.c:247-380 | text with no brace but behind a backslash comes out as it was; in general the result is that of the scan, character by character |
| AckEscape.SeChooses | util/ack/trans.c:382-548 | (suffixes:suffixes=tail) gives its tail iff the lists have a suffix in common |
| AckEscape.ScanExpr | util/ack/trans.c:382-548 | text with no parenthesis but behind a backslash comes out as it was; in general the result is that of the scan, character by character |
| AckEscape.TailKeepsEscape | util/ack/trans.c:416-425 | text in the tail of a conditional is still escaped after the scan iff all its characters but the last are backslashes |
| AckEscape.TailExample | util/ack/trans.c:416-425 | two characters that are parted from their backslashes |
| AckEscape.UnravelJoined | util/ack/trans.c:673-737 | every list of arguments, with their blanks escaped, comes back from the line they make |
| AckEscape.BlanksSkipped | util/ack/trans.c:673-737 | any number of blanks and tabs hold two arguments apart |
| AckEscape.UnravelTokens | util/ack/trans.c:673-737 | every argument is not empty and has no bare blank and no lone backslash |
| AckEscape.LoneBackslash | util/ack/trans.c:728-734 | a line ends in an argument that is not finished, and is given up, iff it ends in an odd number of backslashes |
| AckEscape.LostArgument | util/ack/trans.c:728-734 | a line that loses its second argument |
| AckEscape.ArgumentEnds | util/ack/trans.c:713-731 | the argument under way at some place is finished iff a blank that is not escaped comes after it |
| AckEscape.AaEscaped | util/ack/trans.c:765-816 | the last scan takes the escapes off and gives the text as it was |
| AckEscape.FileNames | util/ack/trans.c:780-811 | between text without special characters < is replaced by the name of the input file and > by that of the output file |
| AckEscape.GetCallArgs | util/ack/trans.c:825-847 | a line of words, each of plain characters, characters behind backslashes and the marks < and >, becomes the arguments that the words stand for, one for one |
| AckEscape.TextSurvives | util/ack/trans.c:827-847 | escaped text in a variable comes out unchanged within one argument, whatever its characters, for every line that uses the variable in an ordinary place, unless the line ends in a lone backslash with no bare blank between it and the text |
| AckEscape.FlagToArgs | util/ack/trans.c:622-669 | the five scans in the order of the driver: the text of a flag is contained in an argument of the phase, whatever its characters; exactly when one of them fails, there is no result |

## Findings

Where the code does less than its purpose asks for, the model has the code's behaviour, an input
that shows it, and the exact condition.

* **Two stars** (util/ack/trans.c:652). `while (length--)` leaves the length at -1, so a second
  unescaped star in a template copies on beyond the matched text. `AssignedValue`: the value is
  complete iff the template has at most one such star.
* **A star after two backslashes** (util/ack/trans.c:645-659). doassign takes a star as escaped after
  any backslash, while the scans before and after it treat two backslashes as one escaped backslash.
  `FilledIsMeant`: the value is the one that is meant, for every text of the star, iff no star of the
  template comes after an even, positive number of backslashes. `SparedStar` has an input.
* **Conditional tails** (util/ack/trans.c:416-421). Backslashes in the tail of a conditional go to
  the result at once and the characters they protect to the tail, so they are parted.
  `TailKeepsEscape`: escaped text is left intact iff all its characters but the last are backslashes;
  `TailExample` has an input.
* **A lone backslash** (util/ack/trans.c:728-731). A line that ends right after a backslash loses its
  whole last argument. `LostArgument` has an input; by `TextSurvives` and `FlagToArgs` the loss
  takes the text iff no bare blank follows it.
* **The stop suffix on the way** (util/ack/scan.c:81-84). The search ends where the stop suffix first
  appears. `StopsEarly`: a better chain can be missed. `LooseIsChain`: no chain is missed iff no
  phases lead from the stop suffix back to it.
* **Inherited sources** (first/lua-5.1/ldump.c:129-132). A function without a source comes back with
  that of its parent or "=?". `DumpLoad.Reload`: the copy is the same iff all sources are named.
* **Line numbers** (first/lua-5.1/llex.c:129-137). A quoted string is rejected if its newlines take
  the line counter to its limit. `Quote.QuoteAndRead` has the exact condition.

## Left out

Collector:

- Finalizers (luaC_separateudata, GCTM) and pacing (thresholds, debt, estimate): steps may come at any moment, which covers every pacing.
- luaS_resize and checkSizes: the number of chains of the string table is fixed; stacks may be resized at any time, so luaD_reallocstack after a scan is covered.
- Replacing the registry while a collection is running: the registry is a fixed root.
- Gray lists, rootgc and the string chains are sequences, so the links through gclist and next are not modelled; marks are kept beside the heap, not in object headers.
- The uvhead ring of all threads is a sequence here; its links, and those of the open lists, are modelled in `upval_ring.dfy` to `upval_state.dfy`.
- GcOps.StoreOnly: upvalues are left aside, as an open one reads differently after a store to the slot it stands for.
- GcRun.Execute: SetField names the node that the hash part of the table gives to a key; which node that is, is modelled with tables only.
- The weak mode of a metatable is a flag of the table; the string field __mode is not read.
- C closures, hooks and stack frames: a thread is its stack, top, globals and open upvalues.

Tables:

- TableNext.FindIndex: dead keys are compared as values, in the source as addresses; that a new key may get the address of one that was freed is not modelled.
- TableCore.Table.KillKeys: values removed from weak tables are not modelled here, only in the collector.
- Keys are integers, NaN and other values with an arbitrary hash function; conversion of floating-point keys and the hash functions themselves are not modelled.
- TableCore.Table.constructor: an array part larger than 2^26 is not modelled.
- TableCore.Table.ResizeArray: only growth; the one caller (OP_SETLIST) never shrinks the array part.
- Metatables and metamethods.

Code generator:

- Arithmetic, concatenation, calls, indexing and constant folding: expressions are constants, locals, upvalues, raw comparisons, not, and, or.
- Limits on registers (MAXSTACK), constants (MAXARG_Bx) and jump offsets: the model has no such limit, so the errors they raise are left out.
- Bit packing of instructions: instructions are a datatype.
- Lexical analysis: SubExpr follows the tree that subexpr's recursion walks, not the tokens.

Patterns, quoting, chunks, sorting:

- PatternText.TextMatches: malformed patterns, and sets that begin with ] or hold a bare -, are covered by the declarative meaning only.
- lmemfind for patterns without special characters, gmatch, gsub and the treatment of negative init.
- Characters are 8-bit and classes are those of the C locale.
- DumpLoad.Reload: numbers are 64 bits and code is opaque words; luaG_checkcode is a parameter, and a function it rejects is an error.
- A writer that fails is not modelled.
- Sort.Auxsort: for orders that are not strict weak ones, where the original may raise "invalid order function", nothing is claimed.

ack driver:

- Preprocessing phases, the t_next shortcut, and an empty or missing stop suffix (scan.c:98-130).
- The fatal error for a malformed list of suffixes: lists are well formed.
- AckEscape.AddArgs: combiners, whose arguments are multiplied by their inputs.
- Variables computed by a routine (HEAD and TAIL), and warnings, which do not change results.
- mapexpand, which finds the text of the star: the text is a parameter.
