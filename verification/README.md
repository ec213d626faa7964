# libbcc core, modelled in Dafny

libbcc is Android's RenderScript compiler library. It takes script bitcode, together with its pragmas, exported variables and functions, and object slots, and turns it into native code. It can also reload native code from a cache file that is validated against the script's SHA-1 digests and its dependencies. This project models the parts of libbcc whose behaviour is decided by its own code. The LLVM stages and the operating system are parameters. The model covers:

- the script objects and the C API around them: `bccCreateScript` … `bccDisposeScript` in the old JIT (`bcc.cpp`), in `lib/bcc` and in `lib/Core`, and the ExecutionEngine `Script` class. This includes the sticky error register, the source and dependency records, and the state machine that goes from unprepared to compiled or cached;
- the getters that copy compiled or cached results into caller buffers of bounded size: exported variables and functions, pragmas, function names and binaries, and object slots;
- the code memory manager: stub and GOT space at the top of the code area, function bodies growing from the bottom, globals in a separate area, the function map, and reset. It is one class for the three copies of the allocator. The fixed-address context manager that hands out slots for cached code is also modelled;
- the cache file: its layout (header, string pool, dependency, export, pragma, object-slot and function lists), the writer, the readers' checks, the relocation of a cached image, and the compiler-cache flow that decides between loading and compiling;
- the code emitter's records of emitted functions, the runtime function table and its binary search, and the bitcode translator's version handling;
- the RenderScript info (`RSInfo`) string pool and its dependency check, and the info text embedded in a script (`RSEmbedInfo`);
- the script runtime: matrices, clamps, element and allocation accessors, the graphics objects' getters, and the YUV conversion;
- the SHA-1 helper, and the build tools `gen-sha1-stamp.py`, `gen-config-from-mk.py` and the `bcc` command-line driver.

In state-changing code the model keeps the source's form. Objects whose fields change are classes with `modifies` clauses. Caller buffers are arrays. Loops are `while` loops with invariants. Pure computations are functions with lemmas. Pointers are byte offsets from a page-aligned base. The target is 32-bit: where the source adds or multiplies `uint32_t` header fields or `size_t` values, the model wraps the result (`% 0x1_0000_0000`). SHA-1, file contents, `mmap`, `stat`, system properties and the LLVM stages are parameters of the operations that use them.

## Model

| member | source | states |
|---|---|---|
| ErrorRegister.Recorded | bcc_script.h:46-50 | `setError` keeps a recorded code, and records a new one only while the register is clear. The same code is at lib/bcc/Script.h:47-51, lib/ExecutionEngine/Script.h:208-212 and bcc.cpp:2728-2732 |
| ErrorRegister.FirstError | bcc_script.h:46-56 | the register's meaning: NO_ERROR exactly when every reported code was NO_ERROR; otherwise the first code that was not |
| ErrorRegister.FirstErrorSnoc | bcc_script.h:46-50 | after any run of `setError` calls the register holds the first error of the run |
| ErrorRegister.Register.constructor | bcc_script.h:39-41 | a new script's register is clear |
| ErrorRegister.Register.SetError | bcc_script.h:46-50 | keeps a recorded code, records the new one otherwise, and keeps the first-error invariant |
| ErrorRegister.Register.GetError | bcc_script.h:52-56 | returns the first error reported since the last call and clears the register; also lib/bcc/Script.h:53-57, lib/ExecutionEngine/Script.h:214-218, bcc.cpp:2734-2738 |
| ErrorRegister.FirstErrorWins | bcc_script.h:46-56 | two errors in a row: `getError` reports the first, and a second `getError` reports NO_ERROR |
| BoundedCopy.CopyCount | lib/bcc/ScriptCompiled.cpp:44-48 | the number copied is at most the count and at most the capacity, and equals one of them |
| BoundedCopy.SignedCopyCount | bcc.cpp:2584-2593 | with a signed `BCCsizei` capacity, a negative capacity copies nothing; otherwise the cut is `CopyCount` |
| BoundedCopy.CopyPrefix | lib/bcc/ScriptCompiled.cpp:50-54 | the first n slots receive the first n entries in list order, and every later slot is unchanged |
| BoundedCopy.CopyPragmaPairs | lib/bcc/ScriptCompiled.cpp:85-90 | keys go to the key list and values to the value list, in order, for the first n pragmas; a NULL list is skipped; when both lists are one array, every slot ends with the value |
| BoundedCopy.FindFunc | lib/bcc/ScriptCompiled.cpp:95 | `find` succeeds exactly when some entry has the name, and returns an entry with that name |
| BoundedCopy.FindFuncAt | lib/bcc/ScriptCompiled.cpp:95 | in a name-sorted map the entry found for a name is the one at that name's position |
| BoundedCopy.LookupCode | lib/bcc/ScriptCompiled.cpp:94-97 | `lookup` gives NULL for an unknown name and the entry's code address otherwise; also lib/bcc/ScriptCached.cpp:93-96 and lib/ExecutionEngine/ScriptCompiled.cpp:105-109 |
| BoundedCopy.FuncBinary | lib/bcc/ScriptCompiled.cpp:118-134 | `getFuncBinary` gives (NULL, 0) for an unknown name and the entry's code address and size otherwise; also lib/bcc/ScriptCached.cpp:117-133 |
| EEScriptCompiled.GetExportVarList | lib/ExecutionEngine/ScriptCompiled.cpp:44-58 | copies min(count, capacity) export variables in order and leaves the rest of the array; a NULL array is left alone |
| EEScriptCompiled.GetExportFuncList | lib/ExecutionEngine/ScriptCompiled.cpp:70-84 | copies min(count, capacity) export functions in order and leaves the rest of the array |
| EEScriptCompiled.GetPragmaList | lib/ExecutionEngine/ScriptCompiled.cpp:87-102 | copies min(count, capacity) pragma keys and values into their own lists, either of which may be NULL |
| EEScriptCompiled.GetFuncInfoList | lib/ExecutionEngine/ScriptCompiled.cpp:119-137 | slot i receives the name, address and size of the i-th emitted function in map order, for min(count, capacity) slots |
| EEScriptCompiled.GetObjectSlotList | lib/ExecutionEngine/ScriptCompiled.cpp:139-155 | copies min(count, capacity) object slots in order and leaves the rest of the array |
| BccScriptCompiled.GetExportVarList | lib/bcc/ScriptCompiled.cpp:42-56 | copies min(count, capacity) export variables in order and leaves the rest of the array |
| BccScriptCompiled.GetExportFuncList | lib/bcc/ScriptCompiled.cpp:59-73 | copies min(count, capacity) export functions in order and leaves the rest of the array |
| BccScriptCompiled.GetPragmaList | lib/bcc/ScriptCompiled.cpp:76-91 | copies min(count, capacity) pragma keys and values, one pair per iteration |
| BccScriptCompiled.GetFuncNameList | lib/bcc/ScriptCompiled.cpp:100-115 | copies the names of the first min(count, capacity) emitted functions, in map order |
| BccScriptCached.GetExportVarList | lib/bcc/ScriptCached.cpp:43-53 | the `memcpy` copies min(count, capacity) cached variable addresses and leaves the rest of the array |
| BccScriptCached.GetExportFuncList | lib/bcc/ScriptCached.cpp:56-67 | the `memcpy` copies min(count, capacity) cached function addresses and leaves the rest of the array |
| BccScriptCached.GetPragmaList | lib/bcc/ScriptCached.cpp:70-90 | all keys are copied first, then all values; when the two lists are one array, the values are what remains |
| BccScriptCached.GetFuncNameList | lib/bcc/ScriptCached.cpp:99-114 | copies the names of the first min(count, capacity) cached functions, in table order |
| CompilerGetters.Relocated | lib/bcc/Compiler.cpp:1106-1114 | each cached export address is moved by the distance between the cached and the actual context address |
| CompilerGetters.GetExportAddrs | lib/bcc/Compiler.cpp:1095-1130 | reports the full count; after a cache load it copies min(count, capacity) relocated cached addresses, otherwise that many compiled ones, and leaves the rest of the array. `getExportFuncs` at lib/bcc/Compiler.cpp:1134-1169 is the same code |
| CompilerGetters.CompiledExportsAsWritten | lib/bcc/Compiler.cpp:1119-1129 | the compiled branch as written: the count is cut, but the loop at 1124-1128 visits every entry of the list; the entries that fit are copied, the rest of the buffer is unchanged, and the number written past its end is the list length minus the buffer length; the old JIT's bcc.cpp:2579-2616 does the same |
| CompilerGetters.CompiledExportsOverrunCapacity | lib/bcc/Compiler.cpp:1119-1129 | for every list and capacity, a buffer of the capped count's size is overrun by the list length minus that count, which is positive exactly when the list is longer than the capped count |
| CompilerGetters.PairsWritten | lib/bcc/Compiler.cpp:1193-1196 | the loop writes k whole pairs, with 2k ≤ allowance < 2k + 2, and none for a non-positive allowance |
| CompilerGetters.GetPragmas | lib/bcc/Compiler.cpp:1173-1217 | reports 2·(number of pragmas); the key and value of pragma i go to slots 2i and 2i + 1 for every whole pair within the allowance; no slot at or beyond the allowance is written |
| CompilerGetters.PragmaStringsAsWritten | bcc.cpp:2619-2637 | the old JIT's loop writes a pair while the allowance is positive, so an odd allowance gets one string more than it allows |
| CompilerGetters.OddAllowanceOverruns | bcc.cpp:2628-2634 | one pragma with room for one string: two strings are written |
| CompilerGetters.GetFunctionNames | bcc.cpp:2265-2282 | reports the number of emitted functions and copies the names of the first min(count, capacity) of them in map order; a negative capacity copies nothing |
| BccApi.BccLoadBinary | lib/bcc/bcc.cpp:71-82 | returns 0 exactly when the cache load succeeds; a non-zero result records INVALID_OPERATION and success records nothing |
| BccApi.BccCompileBC | lib/bcc/bcc.cpp:84-94 | hands back the compiler's result; a non-zero one records INVALID_OPERATION |
| BccApi.BccGetScriptLabel | lib/bcc/bcc.cpp:115-127 | a found address is stored through the out-pointer; an unknown name leaves it alone and records INVALID_VALUE |
| BccApi.TrimmedLength | lib/bcc/bcc.cpp:105 | the copied length is the message length with its NUL or the maximum, whichever is smaller |
| BccApi.BccGetScriptInfoLog | lib/bcc/bcc.cpp:96-113 | as written: reports the length with the NUL, copies the trimmed length, and stores a NUL at index `trimmedLength` when that is inside the buffer; it reports the NUL as written past the buffer exactly when a positive maximum puts it at or beyond the buffer's end; the rest of the buffer is unchanged, and a non-positive maximum writes nothing |
| BccApi.InfoLogNulPastMaximum | lib/bcc/bcc.cpp:104-107 | a message that does not fit with its NUL (a positive maximum at most its length plus one) puts the NUL at index `maxLength`, one past the caller's maximum |
| BccApi.InfoLogOverrunsBuffer | lib/bcc/bcc.cpp:96-113 | for every message and every positive maximum at most its length plus one, a buffer of exactly `maxLength` characters has the NUL written past its end |
| BccApi.BccGetScriptInfoLogWithin | lib/bcc/bcc.cpp:96-113 | corrected: the buffer up to its maximum reads as the first `maxLength - 1` characters of the message, or the whole message when it fits; nothing after the NUL changes |
| CoreApi.WithSource | lib/Core/bcc.cpp:120-137 | the first source creates the script; a later one is appended when linking, and otherwise the script is reset to that source alone with no dependencies |
| CoreApi.ResetIsFreshRead | lib/Core/bcc.cpp:131-133 | reading into a context that already has a script gives the same script as reading into an empty one |
| CoreApi.DependencyAsWritten | lib/Core/bcc.cpp:99-106 | as written: a dependency is recorded exactly when the caller did not pass BCC_SKIP_DEP_SHA1, even with no name, because the flag set for a missing name is never read again (lines 139-144 use the earlier local) |
| CoreApi.UnnamedSourceRecordsDependency | lib/Core/bcc.cpp:99-106 | with no name and no flags, a dependency without a name is recorded |
| CoreApi.RecordedDependency | lib/Core/bcc.cpp:99-106 | corrected, as the warning promises: a dependency exactly when the check is not skipped and the source has a name, holding that name and the bitcode's SHA-1 |
| CoreApi.DependencyDiffersOnlyWithoutName | lib/Core/bcc.cpp:99-106 | the corrected and the as-written dependency agree for every named source; they differ only for a missing name |
| CoreApi.OutputPath | lib/Core/bcc.cpp:313-319 | the path starts with the cache directory, gains a '/' only after a non-empty directory that lacks one, and ends with the cache name and ".o" |
| CoreApi.SeparatorGivenOrAdded | lib/Core/bcc.cpp:313-316 | writing the separator after a non-empty directory yourself gives the same path |
| CoreApi.ScriptContext.constructor | lib/Core/bcc.cpp:54-64 | a new context has no script and no result |
| CoreApi.ScriptContext.AddSource | lib/Core/bcc.cpp:93-147 | fails and leaves the script alone when the source or the merge fails; otherwise the script is `WithSource` plus the recorded dependency; succeeds exactly when each step that runs succeeds; the result is never touched |
| CoreApi.ScriptContext.PrepareExecutable | lib/Core/bcc.cpp:299-330 | returns 1 with no script; otherwise the result is what the driver builds at `OutputPath`, and the call returns 1 exactly when nothing was built |
| CoreApi.ScriptContext.FuncAddr | lib/Core/bcc.cpp:333-348 | NULL without a result or for an unknown symbol; otherwise the symbol's address |
| CoreApi.ScriptContext.GetExportVarList | lib/Core/bcc.cpp:351-380 | with a list and a result, copies the first min(count, size) export variable addresses and leaves the rest; otherwise changes nothing |
| CoreApi.ScriptContext.GetExportFuncList | lib/Core/bcc.cpp:383-412 | the same for the exported functions |
| CoreApi.ScriptContext.GetExportForEachList | lib/Core/bcc.cpp:415-444 | the same for the forEach kernels |
| CoreApi.ReadThenLink | lib/Core/bcc.cpp:223-263 | reading one named source and linking a second leaves both sources, in order, and both dependencies |
| SourceInfo.CreateFromBuffer | lib/ExecutionEngine/SourceInfo.cpp:48-81 | a source without a resource name gets BCC_SKIP_DEP_SHA1; a skipped source stores twenty zero bytes, any other the SHA-1 of its bitcode; allocation failure gives NULL |
| SourceInfo.CreateFromFile | lib/ExecutionEngine/SourceInfo.cpp:84-105 | keeps the flags as given; the SHA-1 is the file's unless the check is skipped, and zero otherwise |
| SourceInfo.CreateFromModule | lib/ExecutionEngine/SourceInfo.cpp:108-133 | a parsed module always ends with the skip flag set and a zero SHA-1 |
| SourceInfo.IntroDependency | lib/ExecutionEngine/SourceInfo.cpp:176-193 | adds nothing when skipped; adds (APK resource, resName, sha1) for a buffer and (file resource, path, sha1) for a file; adds nothing for a module |
| SourceInfo.CreatedSourcesIntroduceRealDigests | lib/ExecutionEngine/SourceInfo.cpp:48-193 | every created source can introduce its dependency; a buffer introduces one exactly when it is named and not skipped, a file exactly when not skipped, a module never; what is introduced carries the real digest |
| Common.AlignDown | bcc.cpp:432-433 | rounding a stub/GOT block's start down gives a multiple of the alignment no more than one alignment below the unaligned start |
| Common.AlignUp | bcc.cpp:579-581 | rounding the cursor up gives the least multiple of the alignment at or above it, and leaves an aligned cursor unchanged |
| CodeMemory.InsertEntry | bcc.cpp:562-564 | inserting into the function map adds one entry |
| CodeMemory.InsertEntryElements | bcc.cpp:562-564 | after the insertion the map holds exactly its old entries and the new one |
| CodeMemory.InsertEntrySorted | bcc.cpp:410-413 | inserting a function not yet in the map keeps the map in key order and adds exactly that key |
| CodeMemory.MovedDown | bcc.cpp:633-635 | the image after `memmove` keeps its length |
| CodeMemory.MovedDownElements | bcc.cpp:633-635 | a byte-by-byte copy from a higher source to a lower destination produces exactly the moved image |
| CodeMemory.MovedDownNothing | bcc.cpp:633-636 | when nothing follows the freed function, the bytes are left as they were |
| CodeMemory.FirstWithStart | bcc.cpp:613-622 | the search finds nothing exactly when no entry starts at the body; otherwise it returns the span of the first such entry in map order |
| CodeMemory.RecordedSpanInRegion | bcc.cpp:613-622 | a span found in the map lies inside the code region |
| CodeMemory.CodeMemoryManager.constructor | bcc.cpp:448-466 | the new manager is in the reset state with a code region of MaxCodeSize bytes |
| CodeMemory.CodeMemoryManager.FreeCodeMemSize | bcc.cpp:415-417 | the free code space is the gap between the function cursor and the stub/GOT cursor, never negative |
| CodeMemory.CodeMemoryManager.FreeGVMemSize | bcc.cpp:440-442 | the free global space is what lies between the global cursor and MaxGlobalVarSize |
| CodeMemory.CodeMemoryManager.AllocateSGMemory | bcc.cpp:422-438 | fails, changing nothing, when the aligned block would start below the function cursor; otherwise returns the aligned block below the old stub/GOT cursor and moves that cursor to it; nothing else changes; the same code is at lib/bcc/CodeMemoryManager.cpp:123-140, lib/CodeGen/CodeMemoryManager.cpp:68-85 |
| CodeMemory.CodeMemoryManager.AllocateStub | bcc.cpp:536-539 | a stub is an aligned block carved downward from the stub/GOT cursor, above the function cursor |
| CodeMemory.CodeMemoryManager.AllocateGOT | bcc.cpp:494-499 | sets HasGOT and, on success, places MaxGOTSize bytes just below the old stub/GOT cursor and above the function cursor; the same code is at lib/bcc/CodeMemoryManager.cpp:169-173, lib/CodeGen/CodeMemoryManager.cpp:114-118 |
| CodeMemory.CodeMemoryManager.StartFunctionBody | bcc.cpp:518-527 | fails when less than the requested size is free; otherwise hands out the whole free span from the function cursor, which is at least the requested size, and moves no cursor; the same code is at lib/bcc/CodeMemoryManager.cpp:187-197, lib/CodeGen/CodeMemoryManager.cpp:132-142 |
| CodeMemory.CodeMemoryManager.EndFunctionBody | bcc.cpp:547-567 | the function cursor advances by the code size and the function is recorded once, in key order; the source's assertions are the preconditions; the same code is at lib/bcc/CodeMemoryManager.cpp:205-226, lib/CodeGen/CodeMemoryManager.cpp:150-171 |
| CodeMemory.CodeMemoryManager.AllocateSpace | bcc.cpp:571-586 | fails, changing nothing, when the aligned block would reach the stub/GOT cursor; otherwise returns the aligned-up cursor and moves the cursor past the block; the same code is at lib/bcc/CodeMemoryManager.cpp:230-246, lib/CodeGen/CodeMemoryManager.cpp:175-191 |
| CodeMemory.CodeMemoryManager.AllocateGlobal | bcc.cpp:589-606 | fails, changing nothing, when the aligned block would pass MaxGlobalVarSize; otherwise returns the aligned-up global cursor and moves it past the block; the same code is at lib/bcc/CodeMemoryManager.cpp:249-266, lib/CodeGen/CodeMemoryManager.cpp:194-211 |
| CodeMemory.CodeMemoryManager.FindFunction | bcc.cpp:613-622 | the loop over the map finds the first entry whose body starts at the address |
| CodeMemory.CodeMemoryManager.MoveDown | bcc.cpp:635 | the forward copy leaves the code region equal to the moved image |
| CodeMemory.CodeMemoryManager.DeallocateFunctionBody | bcc.cpp:611-639 | the code after the freed function moves down over it, the function cursor drops by the function's size, and the map and the other cursors are unchanged; the same code is at lib/bcc/CodeMemoryManager.cpp:271-298, lib/CodeGen/CodeMemoryManager.cpp:216-243 |
| CodeMemory.CodeMemoryManager.FreeSpan | bcc.cpp:627-636 | the bytes between the span's end and the cursor move to the span's start and the cursor drops by the span's size |
| CodeMemory.CodeMemoryManager.Reset | bcc.cpp:666-677 | no GOT, both code cursors at the ends of the region, the global cursor at 0, an empty function map; the same code is at lib/bcc/CodeMemoryManager.cpp:301-310, lib/CodeGen/CodeMemoryManager.cpp:246-255 |
| CodeMemory.AllocateGlobalAsWritten | bcc.cpp:589-606 | the check as written compares only the size with the free space; a granted block is `size` bytes at or above the cursor |
| CodeMemory.AllocateGlobalOverruns | bcc.cpp:590-603 | with an unaligned cursor, the largest request the check accepts ends past the global region |
| CodeMemory.AllocateSpaceAsWritten | bcc.cpp:571-586 | the check as written compares only the size with the free space; a granted block is `size` bytes at or above the cursor |
| CodeMemory.AllocateSpaceOverlapsStubs | bcc.cpp:572-583 | with an unaligned cursor, the largest request the check accepts ends past the stub/GOT cursor |
| CodeMemory.AllocateSGMemoryAsWritten | bcc.cpp:422-438 | the check as written is on the size alone; the block is aligned down below the cursor |
| CodeMemory.AllocateSGMemoryCrossesFunctions | bcc.cpp:424-433 | with the function cursor at 5, the stub/GOT cursor at 10 and a 16-byte-aligned 5-byte request, the block starts at 0, below the function cursor |
| CodeMemory.GOTAssertionFailsAfterReset | bcc.cpp:494-495 | right after `reset` the assertion in `AllocateGOT` is false |
| CodeMemory.DeallocAssertionRejectsRecordedBodies | bcc.cpp:614-624 | the assertion in `deallocateFunctionBody` is false for every body the map records |
| BitcodeTranslation.TranslatedVersions | bcinfo/BitcodeTranslator.cpp:80-96 | exactly the accepted versions 11 to 13 are re-read; the development version 10000 is always accepted; versions below 11 never are |
| BitcodeTranslation.Translator.constructor | bcinfo/BitcodeTranslator.cpp:55-60 | a new translator holds no translated buffer and size 0 |
| BitcodeTranslation.Translator.Output | bcinfo/BitcodeTranslator.cpp:90-94 | no output before a translation; the input itself when it is aliased; the output's length is the recorded size |
| BitcodeTranslation.Translator.Translate | bcinfo/BitcodeTranslator.cpp:74-125 | NULL or empty input and a refused version fail and change nothing; from version 14 the output is the input; below it the output is the upgraded bitcode when the upgrade succeeds, and failure changes nothing |
| BitcodeTranslation.Translator.Destroy | bcinfo/BitcodeTranslator.cpp:63-71 | the aliased input is never freed; below version 14 the translated buffer is freed |
| BitcodeTranslation.PassThrough | bcinfo/BitcodeTranslator.cpp:74-94 | for accepted version 14 or later, translation succeeds, hands back exactly the input, and its destruction frees nothing |
| BufferMemory.ByteAt | bcc_buff_mem_object.h:37-42 | a byte exists exactly at the addresses inside the buffer, and it is the buffer's byte |
| BufferMemory.ReadIndexAsWritten | bcc_buff_mem_object.h:37-42 | the check as written accepts every address up to and including the length |
| BufferMemory.ReadPastEndAccepted | bcc_buff_mem_object.h:38-41 | the address equal to the length passes the check though no byte is there; at every other address the check agrees with the buffer |
| BufferMemory.BufferMemoryObject.constructor | bcc_buff_mem_object.h:30-32 | the object holds the given bytes |
| BufferMemory.BufferMemoryObject.ReadByte | bcc_buff_mem_object.h:34-42 | returns 0 and the buffer's byte exactly for addresses inside [base, base + extent); otherwise −1 and the output is untouched |
| BufferMemory.ReadsWholeBuffer | bcc_buff_mem_object.h:30-42 | every address inside the buffer reads back the buffer's byte |
| ContextManager.SlotIndexFromAddress | lib/ExecutionEngine/ContextManager.cpp:182-193 | returns a slot index exactly when the address is that slot's address, and −1 when it is no slot address |
| ContextManager.SlotIndexOfSlotAddress | lib/ExecutionEngine/ContextManager.cpp:182-193 | each slot's address maps back to that slot |
| ContextManager.FirstExactSlotFrom | lib/ExecutionEngine/ContextManager.cpp:54-77 | the slot chosen is free and was mapped exactly at its address, and every earlier slot was occupied or mapped elsewhere |
| ContextManager.Manager.constructor | lib/ExecutionEngine/ContextManager.cpp:41-46 | every slot starts unoccupied |
| ContextManager.Manager.AllocateContext | lib/ExecutionEngine/ContextManager.cpp:48-91 | marks and returns the lowest free slot the kernel mapped exactly at its address; when there is none, marks nothing and returns the fallback mapping or NULL |
| ContextManager.Manager.AllocateContextAt | lib/ExecutionEngine/ContextManager.cpp:94-142 | succeeds exactly for a valid descriptor, a page-aligned offset, a free slot address and a mapping placed there, and then marks that one slot; every failure leaves the table unchanged |
| ContextManager.Manager.DeallocateContext | lib/ExecutionEngine/ContextManager.cpp:145-167 | frees the slot exactly when the address is a slot address and `munmap` succeeded; NULL and failures change nothing |
| ContextManager.Manager.IsManagingContext | lib/ExecutionEngine/ContextManager.cpp:170-179 | true exactly when the address is the address of an occupied slot |
| ContextManager.AllocateThenDeallocate | lib/ExecutionEngine/ContextManager.cpp:94-167 | mapping an image at a free slot and then unmapping it leaves the table as it was |
| ContextManager.FirstMappedSlotFrom | lib/bcc/ContextManager.cpp:36-72 | the slot chosen is free and its mapping succeeded, and every earlier slot was taken or failed |
| ContextManager.SlotTable.constructor | lib/bcc/ContextManager.cpp:29-31 | every slot of the global table starts free |
| ContextManager.SlotTable.AllocateContext | lib/bcc/ContextManager.cpp:36-72 | every free slot tried is left taken, up to the one that worked; returns that slot's mapping, or the fallback mapping or NULL when none worked |
| ContextManager.SlotTable.AllocateContextAt | lib/bcc/ContextManager.cpp:75-119 | after the argument checks the slot is taken whether or not the mapping succeeds; a rejected call changes nothing and returns NULL |
| ContextManager.SlotTable.DeallocateContext | lib/bcc/ContextManager.cpp:122-144 | frees the slot exactly when the address is a slot address and `munmap` succeeded |
| ContextManager.FailedMappingLeaksSlot | lib/bcc/ContextManager.cpp:107-118 | after a failed image mapping at a free slot, the slot stays taken and a second attempt is refused |
| CacheFormat.ZeroHeader | lib/ExecutionEngine/OldJIT/CacheWriter.cpp:95 | the cleared header records no string pool, no relocation table and a zero checksum |
| CacheFormat.EndiannessMark | lib/ExecutionEngine/OldJIT/CacheWriter.cpp:103 | the writer records 'e' exactly on a little-endian host and 'E' otherwise |
| CacheFormat.PadUpIsAlignUp | lib/ExecutionEngine/OldJIT/CacheWriter.cpp:342-345 | padding by the remainder gives the least multiple of the word size at or above the cursor |
| CacheFormat.LayoutEnd | lib/ExecutionEngine/OldJIT/CacheWriter.cpp:336-363 | the layout cursor never moves backward |
| CacheFormat.Layout | lib/ExecutionEngine/OldJIT/CacheWriter.cpp:336-363 | one offset per section |
| CacheFormat.LayoutPrefix | lib/ExecutionEngine/OldJIT/CacheWriter.cpp:336-363 | laying out fewer sections gives the first offsets of the full layout, and ends no later |
| CacheFormat.LayoutPlacement | lib/ExecutionEngine/OldJIT/CacheWriter.cpp:336-363 | every section is word aligned, starts after the header, lies inside the laid-out extent, and ends before the next one starts, at most three padding bytes earlier |
| CacheFormat.TerminatedLength | lib/ExecutionEngine/OldJIT/CacheWriter.cpp:235-237 | the pool's text takes Σ(length + 1) bytes |
| CacheFormat.TerminatedPrefix | lib/ExecutionEngine/OldJIT/CacheWriter.cpp:254-265 | the text for the first strings is a prefix of the text for all of them |
| CacheFormat.TerminatedAt | lib/ExecutionEngine/OldJIT/CacheWriter.cpp:254-265 | inside the text, string i starts after the terminated strings before it and a NUL follows it |
| CacheFormat.PoolEntries | lib/ExecutionEngine/OldJIT/CacheWriter.cpp:254-265 | one entry per string |
| CacheFormat.PoolEntriesAt | lib/ExecutionEngine/OldJIT/CacheWriter.cpp:254-265 | entry i records the string's length, at the table end plus the terminated lengths of the strings before it |
| CacheFormat.Zeros | lib/ExecutionEngine/OldJIT/CacheWriter.cpp:228-252 | the table region of the pool image is n NUL bytes |
| CacheFormat.ReadString | lib/ExecutionEngine/CacheReader.cpp:256-269 | a string reads back exactly when its recorded bytes lie inside the section, and has the recorded length |
| CacheFormat.PoolRoundTrip | lib/ExecutionEngine/CacheReader.cpp:272-285 | the pool a correct writer builds passes the reader's NUL check and every string reads back unchanged |
| CacheFormat.CheckStringPool | lib/ExecutionEngine/CacheReader.cpp:272-285 | (predicate) every counted pool entry ends with a NUL at its recorded length; `PoolRoundTrip` proves a correct writer's pool passes |
| CacheFormat.PoolImageSize | lib/ExecutionEngine/OldJIT/CacheWriter.cpp:230-237 | the recorded pool size is the count word, the entry table and Σ(length + 1) |
| CacheFormat.XorUpdate | lib/ExecutionEngine/CacheReader.cpp:423-438 | replacing one context word changes the parity by exactly the old word XOR the new one |
| CacheFormat.XorUpdateLast | lib/ExecutionEngine/CacheReader.cpp:423-438 | the same for the last word |
| CacheFormat.XorUpdateBefore | lib/ExecutionEngine/CacheReader.cpp:423-438 | the same for an earlier word, from the shorter sequence |
| CacheFormat.ChecksumDetectsOneWord | lib/ExecutionEngine/CacheReader.cpp:423-438 | a context with one word changed after writing always fails the parity check |
| CacheFormat.FirstFailure | lib/ExecutionEngine/CacheReader.cpp:72-89 | the steps before the first failure all succeed, that one fails, and the whole chain succeeds exactly when no step fails |
| CacheWriter.DepNames | lib/ExecutionEngine/OldJIT/CacheWriter.cpp:140 | one pool string per dependency |
| CacheWriter.FuncNames | lib/ExecutionEngine/OldJIT/CacheWriter.cpp:175 | one pool string per function |
| CacheWriter.PragmaStrings | lib/ExecutionEngine/OldJIT/CacheWriter.cpp:214-215 | two pool strings per pragma |
| CacheWriter.PragmaStringsAt | lib/ExecutionEngine/OldJIT/CacheWriter.cpp:214-215 | pragma i's key and value are strings 2i and 2i + 1 |
| CacheWriter.PragmaStringsSnoc | lib/ExecutionEngine/OldJIT/CacheWriter.cpp:197-217 | one more pragma appends its key and then its value |
| CacheWriter.DepTable | lib/ExecutionEngine/OldJIT/CacheWriter.cpp:133-143 | one record per dependency |
| CacheWriter.FuncTable | lib/ExecutionEngine/OldJIT/CacheWriter.cpp:168-178 | one record per function |
| CacheWriter.PragmaTable | lib/ExecutionEngine/OldJIT/CacheWriter.cpp:197-217 | one record per pragma |
| CacheWriter.PreparedHeader | lib/ExecutionEngine/OldJIT/CacheWriter.cpp:84-116 | the header carries the build's magic and version and the host's endianness mark |
| CacheWriter.SectionSizes | lib/ExecutionEngine/OldJIT/CacheWriter.cpp:350-358 | seven section sizes, in layout order |
| CacheWriter.SizedHeader | lib/ExecutionEngine/OldJIT/CacheWriter.cpp:119-333 | after the prepare steps every section's recorded size is its layout size |
| CacheWriter.HeaderWithSizesSteps | lib/ExecutionEngine/OldJIT/CacheWriter.cpp:66-74 | recording the sizes step by step in the source's order gives the sized header |
| CacheWriter.PoolStringsAt | lib/ExecutionEngine/OldJIT/CacheWriter.cpp:66-69 | the dependency names, then the function names, then the pragma keys and values sit at the pool indices the records use |
| CacheWriter.DependencyNamesReadBack | lib/ExecutionEngine/OldJIT/CacheWriter.cpp:119-146 | each dependency record's name index reads back the dependency's resource name |
| CacheWriter.FunctionNamesReadBack | lib/ExecutionEngine/OldJIT/CacheWriter.cpp:149-181 | each function record's name index reads back the function's name |
| CacheWriter.PragmaNamesReadBack | lib/ExecutionEngine/OldJIT/CacheWriter.cpp:184-219 | each pragma record's indices read back its key and its value |
| CacheWriter.WrittenLayout | lib/ExecutionEngine/OldJIT/CacheWriter.cpp:336-363 | the written sections are in order, word aligned, after the header, without overlap, each large enough for its count word |
| CacheWriter.CalcSectionOffsets | lib/ExecutionEngine/OldJIT/CacheWriter.cpp:336-363 | the cursor walk produces exactly the word-aligned layout |
| CacheWriter.ContextChecksum | lib/ExecutionEngine/OldJIT/CacheWriter.cpp:366-376 | the loop computes the XOR of all context words |
| CacheWriter.BuildStringPool | lib/ExecutionEngine/OldJIT/CacheWriter.cpp:228-268 | the loop builds exactly the pool image: one entry per string, offsets advancing by length + 1, a NUL after every string |
| CacheWriter.PragmaPairs | lib/bcc/CacheWriter.cpp:172-210 | the flat string list is read as pairs, key 2i and value 2i + 1; a trailing odd string is dropped |
| CacheWriter.PragmaPairsRoundTrip | lib/bcc/CacheWriter.cpp:175-197 | flattening the pairs again gives back every string but a trailing odd one |
| CacheWriter.LibBccCalcSectionOffset | lib/bcc/CacheWriter.cpp:308-343 | the six sections get the word-aligned layout, and the context starts at the next page boundary after them |
| CacheWriter.PoolEntriesAsWritten | lib/bcc/CacheWriter.cpp:243-254 | one entry per string, offsets advancing by the length alone |
| CacheWriter.LibBccPoolAsWrittenBreaksReadBack | lib/bcc/CacheWriter.cpp:243-254 | with the strings "a" and "b", the second entry points at the first string's NUL: the reader's check fails and the string reads back wrong |
| CacheWriter.Writer.constructor | lib/ExecutionEngine/CacheWriter.h:88-95 | a new writer has an empty string pool and has written nothing |
| CacheWriter.Writer.AddString | lib/ExecutionEngine/CacheWriter.h:92-95 | appends the string and returns its index |
| CacheWriter.Writer.PrepareHeader | lib/ExecutionEngine/OldJIT/CacheWriter.cpp:84-116 | on success the header is the prepared header; a failed allocation changes nothing |
| CacheWriter.Writer.PrepareDependencyTable | lib/ExecutionEngine/OldJIT/CacheWriter.cpp:119-146 | records the table size, one record per dependency naming its pool string, and appends the dependency names to the pool |
| CacheWriter.Writer.PrepareFuncTable | lib/ExecutionEngine/OldJIT/CacheWriter.cpp:149-181 | records the table size, one record per function with its name index, address and size, and appends the names to the pool |
| CacheWriter.Writer.PreparePragmaList | lib/ExecutionEngine/OldJIT/CacheWriter.cpp:184-219 | records the list size, one record per pragma naming its key and value strings, and appends them to the pool |
| CacheWriter.Writer.PrepareStringPool | lib/ExecutionEngine/OldJIT/CacheWriter.cpp:228-268 | builds the pool image of the strings added so far and records its size |
| CacheWriter.Writer.PrepareExportLists | lib/ExecutionEngine/OldJIT/CacheWriter.cpp:271-333 | copies the export variables, export functions and object slots and records their sizes, stopping at the first failed allocation |
| CacheWriter.Writer.CalcSectionOffset | lib/ExecutionEngine/OldJIT/CacheWriter.cpp:336-363 | records the word-aligned layout of the seven sections from the end of the header |
| CacheWriter.Writer.CalcContextChecksum | lib/ExecutionEngine/OldJIT/CacheWriter.cpp:366-376 | records the XOR of the context words |
| CacheWriter.Writer.WriteAll | lib/ExecutionEngine/OldJIT/CacheWriter.cpp:379-424 | on success the information file holds the header and every section and the object file holds the context |
| CacheWriter.Writer.PrepareNamedTables | lib/ExecutionEngine/OldJIT/CacheWriter.cpp:67-69 | the dependency, function and pragma steps in order, stopping at the first failure |
| CacheWriter.Writer.PreparePoolAndLists | lib/ExecutionEngine/OldJIT/CacheWriter.cpp:71-74 | the pool and export-list steps in order, stopping at the first failure |
| CacheWriter.Writer.PrepareSections | lib/ExecutionEngine/OldJIT/CacheWriter.cpp:66-74 | succeeds exactly when every allocation does, and then every section and size is the one the owner's data determines |
| CacheWriter.Writer.LayOutAndWrite | lib/ExecutionEngine/OldJIT/CacheWriter.cpp:75-77 | after the prepare steps, the written information file is exactly the image the owner's data determines |
| CacheWriter.Writer.WriteCacheFile | lib/ExecutionEngine/OldJIT/CacheWriter.cpp:53-81 | succeeds exactly for two open files, every allocation succeeding and the write succeeding; the information file is then the written image and the object file the context |
| CacheReader.CheckContext | lib/ExecutionEngine/CacheReader.cpp:423-438 | the parity loop passes exactly when the XOR of the context words equals the stored checksum |
| CacheReader.CheckFileSize | lib/ExecutionEngine/CacheReader.cpp:96-122 | (predicate) the information file holds a header and the object file a whole context; `ChecksPassThenRead` is stated with it |
| CacheReader.CheckHeader | lib/ExecutionEngine/CacheReader.cpp:153-166 | (predicate) magic and version words match; a header the writer builds passes it (`WrittenHeaderPasses`) |
| CacheReader.CheckMachineIntType | lib/ExecutionEngine/CacheReader.cpp:169-187 | (predicate) the endianness mark and the off_t, size_t and pointer sizes are the host's; a header the writer builds on the same host passes it |
| CacheReader.CheckSectionOffsetAndSize | lib/ExecutionEngine/CacheReader.cpp:190-229 | (predicate) the five checked sections lie in the file, word aligned and large enough for their count word, and the cached context address is page aligned |
| CacheReader.CheckDependency | lib/ExecutionEngine/CacheReader.cpp:295-349 | (predicate) as many cached dependencies as given ones and, in order, the same names, SHA-1s and resource types; `WrittenTablesPass` proves the written table passes |
| CacheReader.LibBccCheckFileSize | lib/bcc/CacheReader.cpp:94-110 | (predicate) the one cache file holds at least a header and a context |
| CacheReader.LibBccCheckSectionOffsetAndSize | lib/bcc/CacheReader.cpp:172-222 | (predicate) six sections including the relocation table, the context inside the file at a page-aligned offset, and a page-aligned cached address; `LibBccRelocTableRejected` is stated with it |
| CacheReader.XorZero | lib/ExecutionEngine/CacheReader.cpp:431 | the folded sum is 0 exactly when the stored checksum equals the context's XOR |
| CacheReader.XorPrepend | lib/ExecutionEngine/CacheReader.cpp:424-429 | starting the fold from the stored checksum XORs it into the fold of the words |
| CacheReader.ReaderSteps | lib/ExecutionEngine/CacheReader.cpp:72-89 | sixteen steps, in the chain's order |
| CacheReader.ReadCacheFile | lib/ExecutionEngine/CacheReader.cpp:52-93 | yields a result exactly for two open handles, an allocated result and every step of the chain succeeding; the result holds the sections as read and the context |
| CacheReader.WrittenHeaderPasses | lib/ExecutionEngine/CacheReader.cpp:153-229 | the header the writer produces passes the magic, version, machine-type and section checks on the same host |
| CacheReader.WrittenTablesPass | lib/ExecutionEngine/CacheReader.cpp:272-349 | the pool and dependency table the writer produces pass the string-pool and dependency checks for the same dependencies |
| CacheReader.ChecksPassThenRead | lib/ExecutionEngine/CacheReader.cpp:52-93 | when every check passes and the I/O works, the read succeeds |
| CacheReader.WrittenPragmaReadsBack | lib/ExecutionEngine/CacheReader.cpp:365-378 | in the written image, pragma record i names pragma i's key and value |
| CacheReader.WrittenFileReads | lib/ExecutionEngine/CacheReader.cpp:52-93 | the writer's output is accepted on the same host and the reader hands back the written pool, pragma list and context |
| CacheReader.WriteThenRead | lib/ExecutionEngine/OldJIT/CacheWriter.cpp:53-81 | write then read: every check passes and each cached pragma names the key and value the writer was given |
| CacheReader.LibBccRelocTableRejected | lib/bcc/CacheReader.cpp:172-222 | a header whose relocation table was never sized fails the section check |
| CacheReader.LibBccReaderSteps | lib/bcc/CacheReader.cpp:61-78 | fifteen steps, of which `readFuncTable` always fails |
| CacheReader.LibBccReadCacheFile | lib/bcc/CacheReader.cpp:46-91 | yields a result exactly for an open handle, an allocated result and every step succeeding |
| CacheReader.LibBccReadCacheFileNeverSucceeds | lib/bcc/CacheReader.cpp:363-366 | the libbcc reader never yields a result, and its chain stops at `readFuncTable` at the latest |
| CompilerCache.CacheFileBase | lib/bcc/Compiler.cpp:1762-1784 | the unflattened name is never empty: the working directory and a '/' before a relative name, then the name and the extension |
| CompilerCache.Flattened | lib/bcc/Compiler.cpp:1786-1794 | same length, the first character kept, and no '/' after it |
| CompilerCache.GenCacheFileName | lib/bcc/Compiler.cpp:1752-1802 | no name exactly when the resource name is relative and the working directory cannot be had; otherwise the cache directory followed by the name with every later '/' turned into '@' |
| CompilerCache.FlattenedIdempotent | lib/bcc/Compiler.cpp:1786-1794 | flattening a flattened name changes nothing |
| CompilerCache.PragmaStringBytesIsTerminated | lib/bcc/Compiler.cpp:1416-1421 | the header's pragma string bytes are exactly the length of the names and values laid out with their NULs |
| CompilerCache.SumTerminatedPair | lib/bcc/Compiler.cpp:1418-1420 | one more pragma adds its name's and value's lengths plus two |
| CompilerCache.GenCacheHeader | lib/bcc/Compiler.cpp:1346-1459 | the header `genCacheFile` builds, with its running offset, pragma loop, page padding and parity loop, is the generated header |
| CompilerCache.GeneratedLayout | lib/bcc/Compiler.cpp:1392-1443 | the relocation, variable, function and pragma tables follow each other from the end of the header; the code starts at the next page boundary after the pragma table; the data follows the code |
| CompilerCache.PragmaRecords | lib/bcc/Compiler.cpp:1525-1544 | one record per pragma |
| CompilerCache.ReadPragmaString | lib/bcc/Compiler.cpp:1546-1552 | a string reads back exactly when it lies in the string area with a NUL after it, and has the recorded size |
| CompilerCache.PragmaStringsPrefix | lib/bcc/Compiler.cpp:1546-1552 | the strings of the first i pragmas are the first 2i strings |
| CompilerCache.WritePragmaRecords | lib/bcc/Compiler.cpp:1525-1544 | the loop's records are the pragma records: name and value offsets advancing by each length plus one, from the end of the records |
| CompilerCache.ReadTerminatedString | lib/bcc/Compiler.cpp:1546-1552 | a string of the terminated area reads back from where the strings before it end |
| CompilerCache.PragmaRecordOffsets | lib/bcc/Compiler.cpp:1527-1540 | each record's offsets are where its name and value start in the string area, and its sizes are their lengths |
| CompilerCache.PragmaNameReadsBack | lib/bcc/Compiler.cpp:1525-1552 | record i leads back to pragma i's name |
| CompilerCache.PragmaValueReadsBack | lib/bcc/Compiler.cpp:1525-1552 | record i leads back to pragma i's value |
| CompilerCache.PragmaTableRoundTrip | lib/bcc/Compiler.cpp:1410-1421 | the written table's size is the header's `exportPragmasSize`, and every record leads back to its own name and value |
| CompilerCache.CheckHeaderAndDependencies | lib/bcc/Compiler.cpp:1811-1900 | passes exactly when the header is read, the magic and version match, each recorded time is 0 or the current one, and the source SHA-1 matches |
| CompilerCache.GeneratedHeaderFreshness | lib/bcc/Compiler.cpp:1369-1375 | a header the compiler generated passes while libRS and libbcc are unchanged, whatever rslib's time, exactly when the source SHA-1 is unchanged |
| CompilerCache.HeaderAndDependenciesOk | lib/bcc/Compiler.cpp:1811-1900 | (predicate) the header checks of `checkHeaderAndDependencies`: magic, version, each recorded time 0 or current, and the source SHA-1; `CheckHeaderAndDependencies` and `GeneratedHeaderFreshness` are stated with it |
| CompilerCache.Sum32 | include/bcc/bcc_cache.h:48-61 | a sum of two `uint32_t` fields as the target computes it: below 2^32, congruent to the true sum, and equal to it when the sum fits |
| CompilerCache.LoadableLayout | lib/bcc/Compiler.cpp:470-542 | (predicate) the checks on the non-code part in the source's order, with each table's end computed as a wrapping 32-bit sum; `GeneratedCacheLoads` and `WrappedDataSectionAccepted` are stated with it |
| CompilerCache.ChainedTablesLoadable | lib/bcc/Compiler.cpp:470-542 | a file under 4 GiB whose tables follow one another from the header, with page-aligned code and data ending the file, passes every layout check; no 32-bit sum wraps |
| CompilerCache.WrappedDataSectionAccepted | lib/bcc/Compiler.cpp:515-542 | from any accepted layout of a file under 4 GiB, moving the data section to 0xFFFFF000 with 0x2000 bytes is still accepted although it ends past the file |
| CompilerCache.LoadSucceeds | lib/bcc/Compiler.cpp:441-754 | (predicate) everything `loadCacheFile` demands before it returns 0: the system calls succeed, the layout is loadable, the cached address is page aligned and mapped again, and the context checksum matches; `LoadCacheFile` returns 0 exactly when it holds |
| CompilerCache.GeneratedCacheLoads | lib/bcc/Compiler.cpp:441-609 | a cache the compiler wrote, smaller than 4 GiB, passes every check of `loadCacheFile` on the same host when its context maps back at its page-aligned address |
| CompilerCache.CorruptedContextFailsLoad | lib/bcc/Compiler.cpp:588-603 | one changed context word makes the load fail |
| CompilerCache.Compiler.constructor | lib/bcc/Compiler.cpp:377-379 | caching on, with the descriptor and newness `openCacheFile` gave, no failure recorded, no header and no context yet |
| CompilerCache.Compiler.LoadCacheFile | lib/bcc/Compiler.cpp:441-754 | returns 0 exactly when every check passes, with the table ends and the code offset computed in 32 bits as the target does, keeping the header and the context; otherwise returns 1 with the descriptor closed, caching off and the failure recorded |
| CompilerCache.Compiler.Lookup | lib/bcc/Compiler.cpp:1076-1091 | from a loaded cache only "root" and "init" are found, at their cached addresses; otherwise the emitter's functions, NULL for an unknown name |
| CompilerCache.LoadedLookupMatchesCompiled | lib/bcc/Compiler.cpp:1379-1380 | after loading a cache it wrote, the compiler finds "root" and "init" where the compiling run found them |
| CodeEmitter.MappingAfter | lib/CodeGen/CodeEmitter.cpp:132-154 | a NULL address removes the global's entry, any other address installs it; every other entry is unchanged |
| CodeEmitter.MappingRoundTrip | lib/CodeGen/CodeEmitter.cpp:132-154 | installing an address and then removing it returns that address and leaves the map without the entry |
| CodeEmitter.PoolSizeBounds | lib/CodeGen/CodeEmitter.cpp:157-175 | the constant pool holds every entry, and its padding is less than one alignment unit per entry |
| CodeEmitter.PoolEntryPlacement | lib/CodeGen/CodeEmitter.cpp:166-171 | each entry starts at an offset aligned to its own alignment, at or after the end of the entries before it |
| CodeEmitter.GetConstantPoolSizeInBytes | lib/CodeGen/CodeEmitter.cpp:157-175 | the loop computes the pool size: aligned up to each entry's alignment before its size is added; an empty pool is 0 |
| CodeEmitter.JumpTablesAdjacent | lib/CodeGen/CodeEmitter.cpp:1383-1397 | jump table i + 1 starts right after the blocks of table i |
| CodeEmitter.EntriesBeforeMonotone | lib/CodeGen/CodeEmitter.cpp:1383-1397 | jump-table addresses never decrease with the index |
| CodeEmitter.GetJumpTableEntryAddress | lib/CodeGen/CodeEmitter.cpp:1383-1397 | table i is at the jump-table base plus the entry size times the number of blocks in the tables before it |
| CodeEmitter.Emitter.constructor | lib/CodeGen/CodeEmitter.cpp:80-92 | the emitter uses the given memory manager and starts with no mappings and no block locations |
| CodeEmitter.Emitter.UpdateGlobalMapping | lib/CodeGen/CodeEmitter.cpp:132-154 | returns the previous address or NULL, and leaves the map as `MappingAfter` describes |
| CodeEmitter.Emitter.StartMachineBasicBlock | lib/CodeGen/CodeEmitter.cpp:1373-1378 | records the PC for block n; when n does not fit, the location vector grows to 2(n + 1) entries with the new slots 0; every other location is kept |
| CodeEmitter.Emitter.StartGVStubAt | lib/CodeGen/CodeEmitter.cpp:1328-1337 | saves the buffer triple and points the buffer at the stub, with its end one past the stub size |
| CodeEmitter.Emitter.StartGVStub | lib/CodeGen/CodeEmitter.cpp:1314-1325 | saves the buffer triple; the stub comes from the memory manager's stub area, or is NULL when it is full |
| CodeEmitter.Emitter.FinishGVStub | lib/CodeGen/CodeEmitter.cpp:1340-1347 | restores the saved buffer triple; the source's assertion is the precondition |
| CodeEmitter.Emitter.GetExternalFunctionStub | lib/CodeGen/CodeEmitter.cpp:1114-1125 | returns the memoised stub of a function address when there is one; otherwise emits one, records it and returns it; the output buffer is left as it was |
| CodeEmitter.Emitter.ReleaseUnnecessary | lib/CodeGen/CodeEmitter.cpp:106-114 | every compile-time map is empty afterwards |
| CodeEmitter.Emitter.Reset | lib/CodeGen/CodeEmitter.cpp:117-129 | the maps are empty, the result, callbacks and target objects are NULL, and the memory manager is reset |
| RuntimeTable.BSearch | lib/bcc/Runtime.c:129-145 | any entry the binary search reports lies in the searched range and its name compares equal to the key under `strcmp` |
| RuntimeTable.FindIsSound | lib/bcc/Runtime.c:134-145 | whatever the table's order, a non-NULL lookup is the address of an entry whose name compares equal, and a name no entry matches gives NULL |
| RuntimeTable.BSearchFinds | lib/bcc/Runtime.c:134-145 | on a table sorted strictly by `strcmp`, the search over any range containing an entry finds exactly that entry under its name |
| RuntimeTable.FindRuntimeFunctionCorrect | lib/bcc/Runtime.c:134-145 | on a sorted table the lookup returns the address of the entry with exactly that name, and NULL when no entry has it (the same search is at bcc_runtime.c:101-115) |
| RuntimeTable.VerifyRuntimesTable | lib/bcc/Runtime.c:147-157 | reports success exactly when every entry is found under its own name with its own address |
| RuntimeTable.WellFormedTableVerifies | lib/bcc/Runtime.c:147-157 | a table sorted by name passes the start-up check |
| RuntimeTable.UnsortedTableFailsVerification | lib/bcc/Runtime.c:147-157 | a table listed out of order fails it: the lookup of its first entry misses |
| EEScript.SourceDependencies | lib/ExecutionEngine/Script.cpp:293-300 | at most two dependencies, each the one a present source introduces, main source first |
| EEScript.ReaderDependencies | lib/ExecutionEngine/Script.cpp:288-296 | the reader is given libbcc's SHA-1 file and libRS first, then the dependency of each present source, main source first |
| EEScript.LibraryChangeSeen | lib/ExecutionEngine/Script.cpp:288-291 | when libbcc's or libRS's digest changes, the reader is given different dependencies, so an old cache cannot match |
| EEScript.WithSeparator | lib/ExecutionEngine/Script.cpp:218-230 | a non-empty cache directory ends in '/' and only a missing separator is added; an empty one is kept |
| EEScript.WithSeparatorIdempotent | lib/ExecutionEngine/Script.cpp:218-230 | normalising the directory twice gives the same path as once |
| EEScript.Script.constructor | lib/ExecutionEngine/Script.h:124-131 | a new script has no error, Unknown status, both source slots NULL and no lookup callback |
| EEScript.Script.SetError | lib/ExecutionEngine/Script.h:208-212 | the error code changes only from NO_ERROR to a code that is not NO_ERROR; the rest of the script is unchanged |
| EEScript.Script.GetError | lib/ExecutionEngine/Script.h:214-218 | returns the recorded code and leaves NO_ERROR |
| EEScript.Script.MarkExternalSymbol | lib/ExecutionEngine/Script.h:149-151 | appends the name to the user's external symbols, in call order |
| EEScript.Script.AddSourceBC | lib/ExecutionEngine/Script.cpp:83-118 | no resource name gives INVALID_VALUE, a prepared script INVALID_OPERATION, no bitcode INVALID_VALUE, each returning 1 with the sources unchanged; otherwise the slot takes the new source, or NULL with OUT_OF_MEMORY |
| EEScript.Script.AddSourceModule | lib/ExecutionEngine/Script.cpp:121-145 | a prepared script gives INVALID_OPERATION and no module INVALID_VALUE, each returning 1; otherwise the slot takes the module source or NULL with OUT_OF_MEMORY |
| EEScript.Script.AddSourceFile | lib/ExecutionEngine/Script.cpp:148-179 | a prepared script gives INVALID_OPERATION, no path or a failed `stat` INVALID_VALUE; otherwise the slot takes the file source or NULL with OUT_OF_MEMORY |
| EEScript.Script.InternalLoadCache | lib/ExecutionEngine/Script.cpp:242-320 | fails when caching is off, directory or name is empty, or either cache file (`.jit-image`/`.oBCC` for the old JIT, `.o`/`.info` for MCJIT) does not open; with `checkOnly` returns 0 exactly when the reader's check passes and changes nothing; otherwise succeeds exactly when the reader returns an object for the libbcc, libRS and source dependencies, then the script is Cached with it, and a failed read records whether the context slot was unavailable |
| EEScript.Script.InternalCompile | lib/ExecutionEngine/Script.cpp:323-372 | without the compiled object it fails with OUT_OF_MEMORY; with it the script is Compiled even when a later stage fails, and succeeds exactly when every stage does and a main source is present |
| EEScript.Script.PrepareExecutable | lib/ExecutionEngine/Script.cpp:208-239 | a prepared script is refused with INVALID_OPERATION; otherwise directory (ending in '/') and name are kept, a Cached result needs both, and a failed cache load falls back to compiling |
| EEScript.Script.GetCompilerErrorMessage | lib/ExecutionEngine/Script.cpp:465-472 | only a compiled script has a message; any other gives NULL and INVALID_OPERATION |
| EEScript.Script.Lookup | lib/ExecutionEngine/Script.cpp:475-492 | the prepared object's address for the name; before preparation NULL and INVALID_OPERATION |
| EEScript.Script.ExportVarCount | lib/ExecutionEngine/Script.cpp:495-511 | the prepared object's exported-variable count, 0 before preparation |
| EEScript.Script.ExportFuncCount | lib/ExecutionEngine/Script.cpp:514-530 | the prepared object's exported-function count, 0 before preparation |
| EEScript.Script.PragmaCount | lib/ExecutionEngine/Script.cpp:533-549 | the prepared object's pragma count, 0 before preparation |
| EEScript.Script.FuncCount | lib/ExecutionEngine/Script.cpp:552-568 | the prepared object's function count, 0 before preparation |
| EEScript.Script.ObjectSlotCount | lib/ExecutionEngine/Script.cpp:571-587 | the prepared object's object-slot count, 0 before preparation |
| EEScript.Script.GetExportVarList | lib/ExecutionEngine/Script.cpp:590-608 | before preparation INVALID_OPERATION and nothing written; after it the first min(count, size) addresses are copied and the rest of the array is untouched |
| EEScript.Script.GetExportFuncList | lib/ExecutionEngine/Script.cpp:623-641 | the same for exported functions |
| EEScript.Script.GetPragmaList | lib/ExecutionEngine/Script.cpp:656-676 | the same for pragma keys and values, each list written only when given |
| EEScript.Script.GetFuncInfoList | lib/ExecutionEngine/Script.cpp:679-698 | the same for the name, address and size of each function |
| EEScript.Script.GetObjectSlotList | lib/ExecutionEngine/Script.cpp:701-720 | the same for object slots |
| EEScript.Script.RegisterSymbolCallback | lib/ExecutionEngine/Script.cpp:746-756 | the callback and context are always stored; a prepared script also gets INVALID_OPERATION and the call returns 1 |
| EEScript.PrepareTwice | lib/ExecutionEngine/Script.cpp:208-216 | a second `prepareExecutable` is refused with INVALID_OPERATION whatever the first one's outcome |
| BccScript.Script.constructor | lib/bcc/Script.h:39-41 | a new script has no error, Unknown status, no source or library bitcode, no module and no cache file |
| BccScript.Script.ReadBC | lib/bcc/Script.cpp:114-133 | a compiled script is refused with INVALID_OPERATION and 1; otherwise the source bitcode and resource name are kept, and the cache file name (extension ".oBCC") is computed only when both a directory and a resource name are given |
| BccScript.Script.ReadModule | lib/bcc/Script.cpp:136-145 | refused with INVALID_OPERATION once compiled; otherwise the module is taken |
| BccScript.Script.LinkBC | lib/bcc/Script.cpp:148-158 | refused with INVALID_OPERATION once compiled; otherwise the library bitcode is replaced |
| BccScript.Script.InternalLoadCache | lib/bcc/Script.cpp:177-225 | succeeds exactly when caching is on, a cache file is named and opens, and the reader returns a cached object for it and the libbcc, libRS and source-bitcode dependencies; then the script is Cached with that object, otherwise it stays Unknown |
| BccScript.ReaderDependencies | lib/bcc/Script.cpp:199-207 | libbcc and libRS as file resources first, then, exactly when there is source bitcode, an APK resource with its name and the SHA-1 of the bitcode |
| BccScript.ChangeSeen | lib/bcc/Script.cpp:199-202 | when libbcc's or libRS's digest changes, the reader is given different dependencies |
| BccScript.Script.InternalCompile | lib/bcc/Script.cpp:228-298 | without the compiled object it fails with OUT_OF_MEMORY; with it the script is Compiled even when a later stage fails |
| BccScript.Script.Compile | lib/bcc/Script.cpp:161-174 | a compiled script is refused with INVALID_OPERATION; otherwise a named cache file is tried first and the script is compiled when it does not load |
| BccScript.Script.Lookup | lib/bcc/Script.cpp:311-323 | the compiled or cached object's address for the name; before compilation NULL and INVALID_OPERATION |
| BccScript.Script.GetFunctionBinary | lib/bcc/Script.cpp:412-421 | only a compiled script answers, with the function's address and size; any other status writes nothing and sets INVALID_OPERATION |
| BccScript.Script.RegisterSymbolCallback | lib/bcc/Script.cpp:424-432 | the callback is stored even when the call is refused with INVALID_OPERATION because the script is compiled |
| BccScript.FrozenAfterCompile | lib/bcc/Script.cpp:114-174 | once compiled, reading, linking and compiling again are each refused with INVALID_OPERATION |
| Sha1Helper.Sha1Context.constructor | lib/Support/Sha1Helper.cpp:61-62 | a fresh hashing context has been fed nothing |
| Sha1Helper.Sha1Context.Update | lib/Support/Sha1Helper.cpp:72-74 | feeding a chunk appends it to what the digest covers |
| Sha1Helper.CalcSha1 | lib/Support/Sha1Helper.cpp:37-46 | the digest of exactly the given buffer; the same code is at lib/bcc/Sha1Helper.cpp:39-48 |
| Sha1Helper.FedLength | lib/Support/Sha1Helper.cpp:64-80 | the chunk loop feeds a prefix of the file, and all of it when no read fails |
| Sha1Helper.FeedFile | lib/Support/Sha1Helper.cpp:64-80 | the context is fed the file's leading bytes up to the first failing read, chunk by chunk, stopping after a short read; also lib/bcc/Sha1Helper.cpp:63-79 and tools/gen-sha1-stamp.py:6-13 |
| Sha1Helper.CalcFileSha1 | lib/Support/Sha1Helper.cpp:49-83 | 20 zero bytes for a file that cannot be opened; otherwise the digest of what the loop fed, which is the whole file when no read fails; also lib/bcc/Sha1Helper.cpp:51-82 |
| Sha1Helper.LateFailureIrrelevant | lib/Support/Sha1Helper.cpp:64-80 | a read failure at or after the end of the file does not change what is hashed |
| Sha1Helper.ReadSha1 | lib/Support/Sha1Helper.cpp:85-94 | an unopenable file zero-fills exactly `result_size` bytes; otherwise the file's leading bytes, up to that size, are read over the buffer and nothing beyond them changes |
| Sha1Stamp.ComputeSha1List | tools/gen-sha1-stamp.py:15-19 | one context fed every file in list order, so the digest is that of their concatenation (of nothing for an empty list); a missing file ends the tool |
| Sha1Stamp.StampMain | tools/gen-sha1-stamp.py:21-28 | fewer than two arguments exits with status 1 and writes nothing; otherwise the output file is created first and holds the digest, or stays empty when an input cannot be opened |
| ConfigFromMk.TrimLeft | tools/gen-config-from-mk.py:10 | the leading white space of `line.strip()` is removed, and only white space |
| ConfigFromMk.TrimRight | tools/gen-config-from-mk.py:10 | the trailing white space of `line.strip()` is removed, and only white space |
| ConfigFromMk.StripIdempotent | tools/gen-config-from-mk.py:10 | a stripped line has nothing left to strip |
| ConfigFromMk.Strip | tools/gen-config-from-mk.py:10 | `line.strip()`: leading and trailing white space removed; `StripIdempotent` and `StripUnchanged` are stated with it |
| ConfigFromMk.StripUnchanged | tools/gen-config-from-mk.py:10 | a line that starts and ends with a visible character is left as it is |
| ConfigFromMk.SkipSpaces | tools/gen-config-from-mk.py:7 | the pattern's `\s*`: the first position at or after the start that is not white space, with only white space skipped |
| ConfigFromMk.NameEnd | tools/gen-config-from-mk.py:7 | the pattern's `[A-Z_]+` run: the first position that is not a name character, with only name characters passed |
| ConfigFromMk.MatchConfig | tools/gen-config-from-mk.py:7-10 | a match is anchored at the start of the line, has the `libbcc_` prefix, a non-empty upper-case name, and the value '0' or '1' |
| ConfigFromMk.MatchConfigAt | tools/gen-config-from-mk.py:7-10 | the match succeeds, with that name and value, once prefix, name, `:=` and value are found in place |
| ConfigFromMk.MatchesWrittenLine | tools/gen-config-from-mk.py:7-10 | every setting line written as `libbcc_NAME := v` with any white space around `:=` and anything after the value is recognised with exactly that name and value |
| ConfigFromMk.LineOutput | tools/gen-config-from-mk.py:10-12 | one input line contributes at most one `#define` line |
| ConfigFromMk.ConfigLines | tools/gen-config-from-mk.py:9-12 | the header never has more lines than the input |
| ConfigFromMk.ExtractConfig | tools/gen-config-from-mk.py:6-12 | the loop prints, in input order, the `#define` of each line that matches once stripped |
| ConfigFromMk.ConfigLinesAppend | tools/gen-config-from-mk.py:9-12 | the output of two pieces of input is the output of each, one after the other |
| ConfigFromMk.SettingLineDefines | tools/gen-config-from-mk.py:7-12 | the line `libbcc_NAME := v` gives exactly the header line `#define NAME v` |
| ConfigFromMk.ToolMain | tools/gen-config-from-mk.py:14-19 | any argument is a usage error with exit status 1 and no output; without arguments the header lines of standard input are printed |
| RSInfoLayout.After | lib/Renderscript/RSInfo.cpp:104 | the offset just past a list, as the 32-bit header field holds it |
| RSInfoLayout.Chained | lib/Renderscript/RSInfo.cpp:98-119 | one header per list with its item size and count; the first at the start offset cut to 32 bits, every later one at AFTER its predecessor |
| RSInfoLayout.ChainedContiguous | lib/Renderscript/RSInfo.cpp:98-119 | when the file fits in 32 bits, list i starts exactly where the lists before it end, so the lists follow one another without gap or overlap and the last ends at the start plus their total size |
| RSInfoLayout.StringFromPool | lib/Renderscript/RSInfo.cpp:182-191 | NULL exactly for an index at or beyond the pool's size, otherwise the string at that index; also lib/ExecutionEngine/RSInfo.cpp:245-254 |
| RSInfoLayout.StringIdxInPoolAsWritten | lib/Renderscript/RSInfo.cpp:193-201 | only a string beyond the pool's end is rejected; a string inside it gets its own offset; also lib/ExecutionEngine/RSInfo.cpp:256-264 |
| RSInfoLayout.StringBeforePoolAccepted | lib/Renderscript/RSInfo.cpp:196 | a string two bytes before a 16-byte pool passes the check and gets index 2^32-2, neither the invalid marker nor a pool position |
| RSInfoLayout.StringIdxInPool | lib/Renderscript/RSInfo.cpp:193-201 | the invalid index exactly for a string outside the pool |
| RSInfoLayout.StringIndexRoundTrip | lib/Renderscript/RSInfo.cpp:182-201 | an index handed out finds its string again, and a valid index names the string found there |
| RSInfoLayout.HasPragmaAppend | lib/Renderscript/RSInfo.cpp:212-226 | a key is among two lists of pragmas exactly when it is among one of them |
| RSInfoLayout.PrecisionMonotone | lib/Renderscript/RSInfo.cpp:228-234 | more pragmas never ask for more precision, and the order of the pragmas does not matter |
| RSInfoLayout.HasPragmaSnoc | lib/Renderscript/RSInfo.cpp:212-226 | a key is among the pragmas up to i+1 exactly when it is among those up to i or is pragma i |
| EERSInfo.CheckDependency | lib/ExecutionEngine/RSInfo.cpp:68-127 | accepts exactly when the table has the two built-in entries plus one per dependency, the libbcc.so and libRS.so digests are current, and each dependency's name matches over its own length with an equal digest |
| EERSInfo.RecordedTable | lib/ExecutionEngine/RSInfo.cpp:68-127 | the table recorded for a set of dependencies: the two built-in entries, then one entry per dependency with its name and digest |
| EERSInfo.RecordedTableCurrent | lib/ExecutionEngine/RSInfo.cpp:68-127 | a table recorded for the same sources and libraries passes the check |
| EERSInfo.StaleOnChange | lib/ExecutionEngine/RSInfo.cpp:76-104 | a changed libbcc.so or libRS.so, or a table with a different number of entries, makes the cache stale |
| EERSInfo.Info.Shapes | lib/ExecutionEngine/RSInfo.cpp:159-183 | one (item size, count) shape per list, six lists in file order |
| EERSInfo.Info.Layout | lib/ExecutionEngine/RSInfo.cpp:159-183 | the dependency table starts after the header and the string pool, every other list at AFTER its predecessor, each count is its list's length, and nothing else changes |
| EERSInfo.FloatPrecisionRequirement | lib/ExecutionEngine/RSInfo.cpp:266-292 | the scan that returns at the first "rs_fp_imprecise" gives imprecise when that pragma is present, else relaxed when "rs_fp_relaxed" is, else full |
| RenderscriptInfo.GetPath | lib/Renderscript/RSInfo.cpp:37-41 | the info file's path is the file name followed by ".info"; also lib/ExecutionEngine/RSInfo.cpp:53-57 |
| RenderscriptInfo.GetPathInjective | lib/Renderscript/RSInfo.cpp:37-41 | different executables have different info files |
| RenderscriptInfo.ConstructorPoolWriteAsWritten | lib/Renderscript/RSInfo.cpp:82-90 | the `memset` runs after a failed allocation too: a write through NULL exactly when a pool is asked for and not allocated |
| RenderscriptInfo.FailedPoolAllocationWritten | lib/Renderscript/RSInfo.cpp:82-90 | a failed 16-byte pool allocation is followed by a 16-byte write through NULL |
| RenderscriptInfo.ConstructorPoolWrite | lib/Renderscript/RSInfo.cpp:82-90 | with the `memset` only on an allocated pool there is never a write through NULL, and an allocated pool is all zeros |
| RenderscriptInfo.Info.constructor | lib/Renderscript/RSInfo.cpp:68-92 | magic, version, header size and item sizes set, the pool size when a pool is asked for, everything else zero; the pool exists exactly when asked for and allocated; no source hash |
| RenderscriptInfo.Info.CheckDependency | lib/Renderscript/RSInfo.cpp:51-66 | accepts exactly when the recorded source digest equals the expected one in all 20 bytes |
| RenderscriptInfo.Info.Shapes | lib/Renderscript/RSInfo.cpp:98-119 | one (item size, count) shape per list, five lists in file order |
| RenderscriptInfo.Info.Layout | lib/Renderscript/RSInfo.cpp:98-119 | the pragma list starts after the header and the string pool, every other list at AFTER its predecessor, each count is its list's length, and nothing else changes |
| RenderscriptInfo.FloatPrecisionRequirement | lib/Renderscript/RSInfo.cpp:203-260 | imprecise when "rs_fp_imprecise" is among the pragmas, else relaxed when "rs_fp_relaxed" is, else full; then a `debug.rs.precision` value naming a precision overrides it, and an empty one changes nothing |
| DecimalText.Dec | lib/Renderscript/RSEmbedInfo.cpp:74 | an unsigned count as the stream writes it: a non-empty run of decimal digits |
| DecimalText.DecValue | lib/Renderscript/RSEmbedInfo.cpp:74 | reading the written digits back gives the number |
| DecimalText.DigitsEnd | lib/Renderscript/RSEmbedInfo.cpp:101 | the end of the run of digits that starts a foreach line, with only digits passed |
| RSEmbedInfo.TextSnoc | lib/Renderscript/RSEmbedInfo.cpp:79 | writing one more line appends it and its "\n" to the text |
| RSEmbedInfo.TextAppend | lib/Renderscript/RSEmbedInfo.cpp:62-125 | the text of two groups of lines is the text of each, one after the other |
| RSEmbedInfo.ForEachLines | lib/Renderscript/RSEmbedInfo.cpp:96-103 | one line per foreach kernel, in order: its signature, " - ", its name |
| RSEmbedInfo.NumberLines | lib/Renderscript/RSEmbedInfo.cpp:119-121 | one line per slot number, in order, written in decimal |
| RSEmbedInfo.NonZeroIndices | lib/Renderscript/RSEmbedInfo.cpp:105-116 | exactly the positions of the set object-slot flags, ascending |
| RSEmbedInfo.AppendLines | lib/Renderscript/RSEmbedInfo.cpp:75-80 | the loop appends each entry followed by "\n", in order |
| RSEmbedInfo.SetSlotNumbers | lib/Renderscript/RSEmbedInfo.cpp:105-116 | the loop collects the positions of the set slot flags, in order |
| RSEmbedInfo.AppendSection | lib/Renderscript/RSEmbedInfo.cpp:73-80 | a section is its "name: count" line, with the entry count, then one line per entry |
| RSEmbedInfo.GetRSInfoString | lib/Renderscript/RSEmbedInfo.cpp:62-125 | the text is the variable, function and foreach sections, then the object-slot section listing the set slots |
| RSEmbedInfo.TextOfSections | lib/Renderscript/RSEmbedInfo.cpp:62-125 | writing four sections one after the other gives the text of all their lines |
| RSEmbedInfo.SectionReads | lib/Renderscript/RSEmbedInfo.cpp:66-72 | a reader of a written section gets back its entries and the lines after it |
| RSEmbedInfo.ForEachLineReads | lib/Renderscript/RSEmbedInfo.cpp:101-102 | a written foreach line reads back as its name and signature |
| RSEmbedInfo.ForEachLinesRead | lib/Renderscript/RSEmbedInfo.cpp:96-103 | the foreach lines read back as the kernels, in order |
| RSEmbedInfo.NumberLinesRead | lib/Renderscript/RSEmbedInfo.cpp:119-121 | the slot-number lines read back as the numbers, in order |
| RSEmbedInfo.ParseSections | lib/Renderscript/RSEmbedInfo.cpp:66-72 | four sections read in order, with nothing after the last, give the embedded information |
| RSEmbedInfo.InfoLinesNested | lib/Renderscript/RSEmbedInfo.cpp:62-125 | the text's lines are the four sections in order |
| RSEmbedInfo.InfoLinesRoundTrip | lib/Renderscript/RSEmbedInfo.cpp:62-125 | the info text's lines are self-describing: reading the sequence of lines back gives the exported variables, functions and foreach kernels and the indices of the set object slots, in order (the joining with '\n' and splitting again is not modelled) |
| ScriptRuntime.Clamp | lib/ScriptCRT/rs_core.c:438-452 | below `low` gives `low`, inside the range keeps the amount, and the result is always one of the three arguments, within [low, high] when low <= high (int, short, ushort, char and uchar alike) |
| ScriptRuntime.ClampIdempotentMonotone | lib/ScriptCRT/rs_core.c:438-452 | with low <= high, clamping twice is clamping once, and clamping preserves order |
| ScriptRuntime.RowMajorInjective | lib/ScriptCRT/rs_core.c:319-347 | a cell's row-major number determines its row and column |
| ScriptRuntime.CellIndexInjective | lib/ScriptCRT/rs_core.c:319-347 | distinct cells of an N×N matrix have distinct indices, all below N·N |
| ScriptRuntime.MatrixSet | lib/ScriptCRT/rs_core.c:319-347 | `rsMatrixSet` writes exactly float row·N+col, which `rsMatrixGet` then reads back, and every other float keeps its value (N = 4, 3, 2) |
| ScriptRuntime.ElementOffset | lib/ScriptCRT/rs_core.c:485-510 | the byte offset eSize·(x + y·dimX + z·dimX·dimY), computed in 32-bit unsigned arithmetic |
| ScriptRuntime.CellInjective | lib/ScriptCRT/rs_core.c:502-510 | the cells of a box are numbered below dimX·dimY·dimZ without repetition |
| ScriptRuntime.ElementsDisjoint | lib/ScriptCRT/rs_core.c:485-510 | in an allocation that fits 32-bit addressing, each element's bytes lie inside the storage and different coordinates have disjoint bytes |
| ScriptRuntime.ElementOffsetLowerRanks | lib/ScriptCRT/rs_core.c:485-500 | the one- and two-coordinate forms are the three-coordinate form with the missing coordinates 0 |
| ScriptRuntime.NullElementDefaults | lib/ScriptCRT/rs_core.c:512-523 | a NULL allocation has a NULL element, and a NULL element answers 0, NULL or INVALID to every getter (rs_core.c:732-835) |
| ScriptRuntime.SubElementGettersReadBack | lib/ScriptCRT/rs_core.c:741-799 | the sub-element getters answer NULL or 0 exactly past the last sub-element, and below it read back each per-field array |
| ScriptRuntime.SubElementNameCountAsWritten | lib/ScriptCRT/rs_core.c:770-774 | the copy count is the smaller of the recorded name length and the buffer size, less one, in 32-bit unsigned arithmetic |
| ScriptRuntime.EmptyNameCountWraps | lib/ScriptCRT/rs_core.c:770-778 | a recorded name length of 0 makes the count 2^32-1: the terminator goes far past an 8-byte buffer |
| ScriptRuntime.SubElementNameCount | lib/ScriptCRT/rs_core.c:770-774 | the count stays below the buffer size and the recorded length, and is their minimum less one whenever the recorded length is positive |
| ScriptRuntime.ElementGetSubElementName | lib/ScriptCRT/rs_core.c:761-781 | a NULL element, an index past the last sub-element, a zero-sized or NULL buffer give 0 and leave the buffer alone; otherwise the buffer holds, as a terminated C string, the leading characters of the name that fit, and their count is returned |
| ScriptRuntime.MeshGettersReadBack | lib/ScriptCRT/rs_mesh.c:9-55 | a NULL mesh counts 0; the vertex allocation is NULL past the vertex buffer count, the index allocation and primitive NULL and INVALID past the primitive count, and below those bounds the getters read back the mesh's arrays (also rs_core.c:680-730) |
| ScriptRuntime.ProgramStoreGettersReadBack | lib/ScriptCRT/rs_program.c:9-90 | the program store getters read back a store exactly, and a NULL store reads as every flag off and every function INVALID (also rs_core.c:527-608) |
| ScriptRuntime.ProgramRasterGettersReadBack | lib/ScriptCRT/rs_program.c:93-108 | the raster getters read back a raster state; a NULL one reads as no point sprites and an INVALID cull mode |
| ScriptRuntime.SamplerGettersReadBack | lib/ScriptCRT/rs_sampler.c:9-51 | the sampler getters read back every field they expose; a NULL sampler reads as INVALID with anisotropy 0 |
| ScriptRuntime.YuvToRgba | lib/ScriptCRT/arch/generic.c:197-212 | alpha is opaque and each colour channel is its fixed-point formula clamped to [0, 255] |
| ScriptRuntime.ChannelsFitShort | lib/ScriptCRT/arch/generic.c:198-205 | the `short` intermediates never overflow: each channel is exactly its rounded-down formula, within [-277, 534] |
| ScriptRuntime.GreyWithoutChroma | lib/ScriptCRT/arch/generic.c:197-212 | without chroma the colour is a grey that rises with y, and video range 16 and 235 map to black and white |
| RsAllocation.Stored | lib/Renderscript/runtime/rs_allocation.c:76-81 | a store writes the data over the bytes from the offset on and leaves every other byte as it was |
| RsAllocation.StoredElsewhere | lib/Renderscript/runtime/rs_allocation.c:76-81 | a store leaves any byte range it does not overlap unchanged |
| RsAllocation.StridedOffset | lib/Renderscript/runtime/rs_allocation.c:36-61 | the byte offset eSize·x + y·stride + z·stride·dimY of an element, in 32-bit unsigned arithmetic |
| RsAllocation.RowNumber | lib/Renderscript/runtime/rs_allocation.c:53-61 | the row number y + z·dimY stays below dimY·dimZ and determines y and z |
| RsAllocation.InRowDisjoint | lib/Renderscript/runtime/rs_allocation.c:44-61 | when a row of elements fits in the stride, elements at different places occupy disjoint bytes |
| RsAllocation.StridedIsInRow | lib/Renderscript/runtime/rs_allocation.c:53-61 | the offset of (x, y, z) is element x of row y + z·dimY, and inside the allocation nothing wraps |
| RsAllocation.StridedDisjoint | lib/Renderscript/runtime/rs_allocation.c:53-61 | inside level 0, each element lies within the dimY·dimZ rows and different coordinates occupy disjoint bytes |
| RsAllocation.Allocation.constructor | lib/Renderscript/runtime/rs_allocation.c:6-34 | an allocation holds level 0's storage, dimensions and stride, and the element size and flags of its state |
| RsAllocation.Allocation.GetDims | lib/Renderscript/runtime/rs_allocation.c:6-34 | level 0's three dimensions, and the mipmap and faces flags as 1 or 0 |
| RsAllocation.Allocation.ElementAt | lib/Renderscript/runtime/rs_allocation.c:36-61 | `rsGetElementAt` gives the element's strided offset, below 2^32 |
| RsAllocation.Allocation.SetElementAt | lib/Renderscript/runtime/rs_allocation.c:83-98 | the element's bytes are copied from `ptr` to the offset `rsGetElementAt` gives for the same coordinates, and nothing else in the storage changes |
| RsAllocation.Allocation.SetElementAtTyped | lib/Renderscript/runtime/rs_allocation.c:100-116 | a typed store writes the value's bytes at the offset computed with the type's size, and nothing else |
| RsAllocation.Memcpy | lib/Renderscript/runtime/rs_allocation.c:76-81 | the count runs down to 0, copying one byte per step, so exactly `size` bytes of the source land at the destination and nothing else changes |
| RsAllocation.TypedStoreIsElementStore | lib/Renderscript/runtime/rs_allocation.c:83-116 | a typed store whose type has the element's size writes what the untyped store writes |
| RsAllocation.StoreKeepsOtherElements | lib/Renderscript/runtime/rs_allocation.c:91-98 | a store to one element of level 0 leaves every other element as it was |
| BccTool.Options | tools/bcc/main.cpp:80-92 | the option table holds "o", "R" and "h", preceded by "C" in host builds, each name a terminated string |
| BccTool.FindOption | tools/bcc/main.cpp:108-130 | the index of the first entry with the name, or the table's size when no entry has it |
| BccTool.LookupOption | tools/bcc/main.cpp:108-131 | the `strcmp` loop over the table stops at the first entry with the name, and at the table's end when none matches |
| BccTool.FindOptionAt | tools/bcc/main.cpp:108-131 | an index with no match before it and a match at it, or the table's end, is what the lookup finds |
| BccTool.LastIndexOf | tools/bcc/main.cpp:178 | `strrchr`: the last position holding the character, or none when it does not occur |
| BccTool.Step | tools/bcc/main.cpp:103-144 | one round of the argument loop always moves forward, past the option's arguments |
| BccTool.Tool.constructor | tools/bcc/main.cpp:54-56 | the input, output, run flag and triple start unset |
| BccTool.Tool.DoSetOutput | tools/bcc/main.cpp:274-283 | a path whose last '/' is its last character is refused with −1 and nothing set; any other becomes the output and one argument is consumed |
| BccTool.Tool.DoSetInput | tools/bcc/main.cpp:257-272 | a path that is not a regular file is refused with −1 and nothing set; a regular file becomes the input with 0 |
| BccTool.Tool.ParseOption | tools/bcc/main.cpp:95-147 | the loop ends with the status and globals of the argument-by-argument definition; a bare invocation prints the help |
| BccTool.SplitOutputRejoins | tools/bcc/main.cpp:178-189 | directory, '/' and file name give the output path back, the file name holds no '/', and a path "-o" accepts leaves a non-empty file name |
| BccTool.ParseOptions | tools/bcc/main.cpp:95-147 | `parseOption` from the initial globals, no arguments meaning help and exit; `ToolMain` and `TripleRecordsOptionText` are stated with it |
| BccTool.SplitOutput | tools/bcc/main.cpp:178-189 | the output path split at its last '/' into directory and file name, "." when there is none; `SplitOutputRejoins` is stated with it |
| BccTool.OutputBufferUnterminated | tools/bcc/main.cpp:165-178 | the buffer filled with `strncpy` of the path's length has no terminator when the allocation's last byte is not NUL, "a.out" included |
| BccTool.OutputBuffer | tools/bcc/main.cpp:165-176 | a buffer one longer than the path that holds the path and its terminator |
| BccTool.SplitOutputPath | tools/bcc/main.cpp:165-189 | cutting the buffer at its last '/' yields the directory and file name of the split, "." when there is no '/' |
| BccTool.CopyPath | tools/bcc/main.cpp:168-176 | a fresh buffer holding the path and its terminator |
| BccTool.StrRChrSlash | tools/bcc/main.cpp:178 | the scan back from the terminator stops one past the last '/', or at 0 when there is none |
| BccTool.CutAtSlash | tools/bcc/main.cpp:179-184 | overwriting the last '/' with a terminator leaves the directory and then the file name, each terminated |
| BccTool.LastSlashFound | tools/bcc/main.cpp:178 | the scan's stopping point is the last '/' |
| BccTool.ToolMain | tools/bcc/main.cpp:225-245 | exit status 1 exactly on an option error, 2 exactly when the script does not load, 6 exactly when it is to be run and has no "main", "root" or "_Z4rootv", and 0 otherwise |
| BccTool.ParsedPathsFromArgv | tools/bcc/main.cpp:95-147 | every output path the parse records is one of the (terminated) arguments |
| BccTool.StepPaths | tools/bcc/main.cpp:274-283 | one round records only an argument as the output path |
| BccTool.SecondInputRejected | tools/bcc/main.cpp:135-141 | a second non-option argument once the input is set is an error |
| BccTool.OptionErrors | tools/bcc/main.cpp:112-134 | "-o" without its argument, an unknown option and an output path ending in '/' are errors |
| BccTool.TripleRecordsOptionText | tools/bcc/main.cpp:250-255 | "-C" consumes the triple after it but records its own text "-C" as the triple |
| BccTool.TypicalCommandLine | tools/bcc/main.cpp:95-147 | `bcc -o OUT -R IN` sets the output, the run flag and the input |

## Left out

- SHA-1 itself is a function parameter; the model does not compute digests.
- File, `mmap`/`munmap`, `stat` and `getcwd` outcomes are parameters. So are the contents of files and system properties.
- The LLVM stages are parameters of the flows that use them: bitcode reading and linking, code generation, the 2.7 upgrade in the translator, the target's stub emission, and the JIT's stage outcomes.
- `BCINFO_API_VERSION` is a parameter of the translator, because the build defines it.
- Floating-point values in the script runtime are opaque; only their placement and copying are modelled.
- Matrix indices in the script runtime are not wrapped to 32 bits; every index the functions compute stays far below 2^32.
- Executing compiled code (`runMain`'s call of the entry point) is left out; only the search for an entry point is modelled.
- Overlapping source and destination in the runtime's local `memcpy` is not modelled.
- The triple the `bcc` driver records for "-C" is not passed on to any compilation in the model.
- The mesh getters assume the parallel vertex and index arrays the runtime keeps; their allocation is not modelled.
- The sizes of the ExecutionEngine RSInfo items come from the header's fields; the model takes them as given and does not derive them from C struct layouts.
- C struct sizes (cache header, list entries, `size_t`, pointers, pages) are parameters of an environment value.
- `(unsigned int)` casts of sizes that always fit are not modelled.
- The other `helper_add_source` overloads and `bccReadFile`/`bccLinkFile` in `lib/Core` go through the same recorded-source path as the overloads that are modelled. They are not modelled separately.
- Destructors that `delete` a buffer are modelled as methods that return the freed value.
- Concurrency, mutexes and `flock` on cache files are left out.
- The 512-byte truncation of cache file names in `genCacheFileName` is not modelled.
- Common.AlignDown: exact only for power-of-two alignments, because the mask `x & ~(A-1)` is modelled as `x - x % A`; the allocators ask only for powers of two.
- CompilerCache.Compiler.constructor: models the compiler's state after `readBC` and `openCacheFile`, not the steps that get there.
- `setMemoryWritable`, `setMemoryExecutable`, `setPoisonMemory` and the exception-table members of the memory manager are empty or only assert in the source, and are left out.
- The ExecutionEngine `Script`'s `prepareSharedObject`, `getExportVarNameList`, `getExportFuncNameList`, `getContext`, `getELFSize` and `getELF` are left out. They hand out LLVM or ELF objects the model does not have.
- The cache write that follows a compilation in the ExecutionEngine `internalCompile` is modelled by the cache writer on its own, not as part of that method.
- The "__clearThreadable" symbol callback hack of the RenderScript runtime is left out.
- CompilerCache.GenCacheHeader: the offsets and sizes it writes into the `uint32_t` header fields are not truncated to 32 bits; the model's caches are smaller than 4 GiB, which `GeneratedCacheLoads` requires.
- CompilerCache.Compiler.LoadCacheFile: the file size from `fstat` is taken as it is; a size beyond what the target's `off_t` holds is not wrapped.
- CacheFormat.EntryTerminated: an entry whose terminator would lie past the end of the pool section counts as a failed check; the source reads that byte from whatever memory follows.
- CacheReader.CheckDependency: names are compared as byte sequences, so a cached name with an embedded NUL does not match; the source compares a `std::string` with a C string that ends at the first NUL.
- The MCJIT reader's symbol-lookup callback registration in the ExecutionEngine `internalLoadCache` is left out; symbol lookup belongs to the linker, which the model does not have.
- The graphics getters that `rs_core.c` duplicates are modelled once, from `rs_mesh.c`, `rs_program.c` and `rs_sampler.c`; the duplicates have the same bodies.

## Findings

| source | as written | input that shows it | evidently intended | confidence | as-written member | corrected member |
|---|---|---|---|---|---|---|
| bcc.cpp:589-606 | `allocateGlobal` checks only the size against the free space, then aligns the cursor up | a request for all the space left when the cursor is not a multiple of the alignment: the block ends past the data area | the check includes the alignment padding, so a block never passes the end of the data area | not executed | CodeMemory.AllocateGlobalOverruns | CodeMemory.CodeMemoryManager.AllocateGlobal |
| bcc.cpp:571-586 | `allocateSpace` checks only the size against the free space, then aligns the function cursor up | a request for all the space up to the stubs when the function cursor is not a multiple of the alignment: the block ends inside the stubs | the check includes the alignment padding, so function space never overlaps stub space | not executed | CodeMemory.AllocateSpaceOverlapsStubs | CodeMemory.CodeMemoryManager.AllocateSpace |
| bcc.cpp:422-438 | `allocateSGMemory` checks only the size, then aligns the block down below the stub cursor | stub cursor 10, function cursor 5, size 5, alignment 16: the block starts at 0, below the function cursor | the aligned block stays above the function cursor | not executed | CodeMemory.AllocateSGMemoryCrossesFunctions | CodeMemory.CodeMemoryManager.AllocateSGMemory |
| bcc.cpp:494-495 | `AllocateGOT` asserts that a GOT already exists before creating one | any call after construction or reset, when there is no GOT yet | the assertion is that no GOT exists yet | not executed | CodeMemory.GOTAssertionFailsAfterReset | CodeMemory.CodeMemoryManager.AllocateGOT |
| bcc.cpp:614-624 | `deallocateFunctionBody` asserts that the body is *not* in the function map, then looks it up there | any body that `endFunctionBody` recorded | the assertion is that the body is recorded | not executed | CodeMemory.DeallocAssertionRejectsRecordedBodies | CodeMemory.CodeMemoryManager.DeallocateFunctionBody |
| lib/bcc/CacheWriter.cpp:243-254 | string-pool offsets advance by each string's length, without its terminator | the strings "a" and "b": the second entry points at the first string's NUL | offsets advance by length + 1, so every entry reads back its own string | not executed | CacheWriter.LibBccPoolAsWrittenBreaksReadBack | CacheFormat.PoolRoundTrip |
| lib/bcc/Compiler.cpp:1119-1129 | the compiled branch of the export getter caps the count but copies every address | any list longer than the capacity: the number written past the buffer is the list length minus the capped count | the copy stops at the capped count | not executed | CompilerGetters.CompiledExportsOverrunCapacity | CompilerGetters.GetExportAddrs |
| bcc.cpp:2619-2637 | the pragma loop writes a key and a value while the allowance is positive | one pragma with room for one string: two strings are written | a pair is written only while two strings fit | not executed | CompilerGetters.OddAllowanceOverruns | CompilerGetters.GetPragmas |
| lib/bcc/bcc.cpp:96-113 | the info log's terminator is written at the log's length, even when that is past the caller's maximum | a positive maximum at most the message length plus one (the message does not fit, or fits only with its NUL): the NUL goes at index maximum, past a buffer of maximum characters | the terminator stays inside the caller's buffer | not executed | BccApi.InfoLogOverrunsBuffer | BccApi.BccGetScriptInfoLogWithin |
| lib/Core/bcc.cpp:99-106 | a source without a name still records a dependency, because the skip flag is set on the local copy and the caller's flags are tested | a source added with no name and flags 0 | a source without a name records no dependency | not executed | CoreApi.UnnamedSourceRecordsDependency | CoreApi.RecordedDependency |
| lib/Renderscript/RSInfo.cpp:193-201 | `getStringIdxInPool` rejects only strings beyond the pool's end | a string two bytes before a 16-byte pool gets index 2^32-2 | a string outside the pool in either direction gets the invalid index | not executed | RSInfoLayout.StringBeforePoolAccepted | RSInfoLayout.StringIndexRoundTrip |
| lib/Renderscript/RSInfo.cpp:82-90 | the pool is cleared with `memset` even when its allocation failed | a 16-byte pool whose allocation fails: 16 bytes are written through NULL | the pool is cleared only when it was allocated | not executed | RenderscriptInfo.FailedPoolAllocationWritten | RenderscriptInfo.ConstructorPoolWrite |
| lib/ScriptCRT/rs_core.c:770-778 | the copy count is min(recorded length, buffer size) - 1 in unsigned 32-bit arithmetic | a recorded name length of 0: the count is 2^32-1 | the count never exceeds the buffer | not executed; low, because recorded lengths normally include the terminator | ScriptRuntime.EmptyNameCountWraps | ScriptRuntime.ElementGetSubElementName |
| tools/bcc/main.cpp:165-178 | the output path is copied with `strncpy` of its length into a buffer one longer, so no terminator is copied | the default "a.out" when the allocation's last byte is not NUL | the terminator is copied too, and `strrchr` stays inside the buffer | not executed | BccTool.OutputBufferUnterminated | BccTool.SplitOutputPath |
| bcc_buff_mem_object.h:37-42 | `readByte` rejects only addresses beyond the extent | the address equal to the buffer's length reads one byte past its end | addresses from base up to, but not including, base + extent | not executed | BufferMemory.ReadPastEndAccepted | BufferMemory.BufferMemoryObject.ReadByte |
