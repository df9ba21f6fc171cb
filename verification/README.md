# Ocelotl's kernels, modelled and proved in Dafny

Ocelotl keeps a plain "parity oracle" beside each fast kernel, and its tests compare the two on a few
fixed shapes. This project models both sides and proves that they agree: for every shape, every
thread count, every order in which threads or chunks run, and every run of the stateful parts.

## How the model is built

- **Two number models.** Every kernel is written over a record `Ops<F>` of float operations about which
  nothing is assumed. An equality proved there uses the order of evaluation only, so it holds bit for bit
  under any rounding. `RealOps` is the instance over the reals; claims about mathematical value are proved
  there. The exponential, cosine and sine are parameters constrained by the hypotheses `ExpLaws` and
  `TrigLaws`, and no axiom is added. The k-quant code is modelled over the reals with explicit `i8` and
  `i32` ranges, so that a verified method cannot overflow, and with the overflow of the one division that
  can make an infinity.
- **Kernels are methods over arrays.** Output buffers, caches and scratch are arrays updated in place by the
  source's own loops; read-only inputs are sequences. A Rust sub-slice is the whole array plus its offset.
  Each loop nest is proved against a function, and the properties are proved of that function.
- **Index arithmetic.** `Times`, `Quot` and `Rem` are multiplication, division and remainder, defined by
  recursion; `Index` proves that they are. Flat offsets such as `(row * heads + head) * dim` are written
  with them.
- **Threads.** Chunks of a thread pool and independent GPU threads run in an arbitrary order given as a
  schedule. Where threads share memory while they run (the cache-append kernel, the register-tiled
  product) the model is a machine whose step is one shared access of one thread, and the theorems are about
  all interleavings.
- **One attention shape.** Encoder, block-diagonal batched, causal, windowed, cache, incremental, cross and
  grouped-query attention differ in which rows a query sees and which head it reads; `AttentionShape.Shape`
  is that choice, so each loop nest and each theorem covers them all.
- **Modes.** `Mode` is the backend's. Only the pooled encoder, both forms of cross attention and both cache
  forms look at it; every other attention body is scalar, and so is what it is compared with. `RoundOps` rounds
  each result of an otherwise exact operation once, by any rounding onto a set of numbers.
- **Meanings.** A specification function that a kernel and its contract share is tied to something else: a plain
  sum at flat offsets (`AttentionMeaning`, `LinearMeaning`, `ConvMeaning`, `KQuantMeaning`), a packer written from
  the format (`KQuantFormat`, `KQuantBlocks`), the loader's own code (`KQuantLoader`), or rules about the steps of
  a run (`TdtTiming`).

Files follow the source: `Attention*`, `Softmax`, `HeadAttention`, `Flash*`, `ExpandKernel`, `Cache*`,
`AppendRace*`, `AttendRace`, `Avx*`, `RoundedWitness` for attention; `Linear*`, `Matmul`, `RegTile*` for
products; `KQuant*` and `HalfFloat` for quantised weights; `Rope*`; `Conv*`; `Kv*` for cache layouts, stores and
pages; `Tdt*` for transducer decoding; `Wave*` for audio files; `Index`, `Arithmetic`, `Rounding`, `Sums`, `Checked`
and `Layout` underneath.

## What the proofs turned up

- The Rust decoder's comment on its step limit says that a weight bug can keep the decode loop from
  terminating. It cannot: no networks can take more than `cap` steps a frame. But the limits can fire on
  long recordings: 20000 steps are safe exactly up to 2000 frames, 100000 up to 10000 (`Tdt.GuardsInFrames`).
- `conv_out_len` reports one output for an empty input and for a kernel larger than the padded input
  (`Conv.OutputsFit`), so the length-preserving choice of padding preserves every length except zero
  (`Conv.SameLengthIff`).
- `depthwise_conv1d` does not check the length of its bias; a short one is an index out of bounds
  (`ConvTheorems.DepthwiseConv1d`).
- The row-chunked linear dispatch with no output features asks for chunks of length zero, which panics
  (`LinearParallel.LinearOutByIn`).
- `checked_product` refuses a product that is zero when an earlier factor pair overflows
  (`Checked.ZeroDoesNotSave`).
- docs/design/kv-cache.md has the page table map logical to physical pages. The paged store addresses its own
  memory by logical page; physical page numbers are bookkeeping only (`KvPaged.StorageOffsetIs`).
- Reading no rows of a layer that does not exist succeeds in both caches (`KvStores.CopyContiguousLayer`).
- The register-tiled product adds padded zero products when its chunks do not divide the inputs. For all
  operations and inputs it equals the scalar kernel bit for bit if and only if the chunks do divide them
  (`RegTileExact.BitForBitIff`); in every other shape biases and products of -0 tell the two apart
  (`RegTileExact.SignedZeroDiffers`), and over the reals nothing does (`RegTileExact.EveryRunIsPlain`).
- Adding a thread pool changes the encoder's bits in AVX2 mode. The serial encoder is scalar in every mode and
  only the pooled one uses vectors, although the comment above the dispatch says that each row keeps the order of
  the serial oracle. The two agree bit for bit on all inputs if and only if the mode is not AVX2, or the sequence
  is shorter than 32, or heads are narrower than eight (`AttentionBits.EncoderPoolIff`); `AttentionBits.PoolShows`
  is the input, and over the reals they always agree (`AttentionBits.RealPool`).
- In AVX2 mode decoding through the cache is not full causal attention bit for bit, because the latter is scalar in
  every mode. It is if and only if the mode is not AVX2 or heads are narrower than eight
  (`AttentionBits.DecodeIff`); under rounded arithmetic the first step agrees as well, and
  `AttentionBits.RoundedStepShows` is the input for all others (`AttentionBits.RoundedDecodeIff`). Over the reals
  they always agree (`CacheDecode.RealStepIsCausal`).
- Q8_K quantisation refuses finite inputs: when the largest magnitude of a block is below about 3.7e-37 the
  scale -127 / max overflows. A block of 1e-37, a normal number, is refused
  (`KQuantQuantize.SmallBlockRefused`); the exact condition is in `KQuantQuantize.QuantizeRow`.
- A row chunk that starts on a tile boundary may end off one only when no whole tile follows it
  (`LinearParallel.ChunkClass`); that, and not the multiple of four alone, is what the threaded AVX2 layer needs.
- The row-chunked matrix product with no columns asks for chunks of length zero, which panics
  (`Matmul.Parallel`).

## Model

| member | source | states |
|---|---|---|
| Softmax.SoftmaxInPlace | crates/kernels/src/lib.rs:2121-2143 | the prefix becomes the max-subtracted softmax of what it was; the rest of the buffer is untouched |
| FlashExact.MassRescales | crates/kernels/src/cubecl_backend.rs:1814-1823 | changing the running maximum multiplies the gathered mass by the exponential of the difference |
| FlashExact.OnlineInvariant | crates/kernels/src/cubecl_backend.rs:1777-1830 | after n keys m is their greatest score, and l and each lane of acc are the prefix sums of weights and weighted values shifted by m |
| FlashExact.FlashIsTwoPass | crates/kernels/src/cubecl_backend.rs:1730-1831 | over the reals the one-pass kernel is exactly the two-pass softmax times V, for every length, dimension and scale |
| AttentionOracle.DotLoop | crates/kernels/src/lib.rs:922-926 | the score accumulation is the left fold of the two head rows |
| AttentionOracle.ScoreLoop | crates/kernels/src/lib.rs:920-928 | the scratch prefix holds the scaled score of every visible key |
| AttentionOracle.ValueLoop | crates/kernels/src/lib.rs:932-943 | the output slice is the weighted sum of the visible value rows, key by key, and nothing else changes |
| AttentionOracle.HeadBody | crates/kernels/src/attention.rs:618-661 | one head of one row is the two-pass oracle whatever the scratch held before |
| AttentionOracle.HeadByMode | crates/kernels/src/lib.rs:985-1054 | the same in whichever mode the backend runs, scalar or AVX2 |
| AttentionOracle.AttendRows | crates/kernels/src/lib.rs:979-1056 | rows iStart to iEnd of the output are the blocks of the arithmetic given, and no other cell changes |
| AttentionForms.Serial | crates/kernels/src/lib.rs:900-946 | the serial encoder, which no mode reaches, writes the scalar oracle's block for every row and head |
| AttentionForms.AllRows | crates/kernels/src/lib.rs:1064-1115 | the serial cross-attention body writes every block in its mode's arithmetic |
| AttentionForms.Parallel | crates/kernels/src/lib.rs:949-1061 | row chunks on any number of threads, in any order, write every block in the arithmetic given |
| AttentionForms.PooledHeads | crates/kernels/src/lib.rs:1117-1193 | so do tasks of one head of one row each |
| AttentionForms.SameOutput | crates/kernels/src/attention.rs:825-905 | two outputs with the same blocks are the same buffer, so forms of one arithmetic agree bit for bit |
| AttentionDispatch.EncoderAttention | crates/kernels/src/cpu_backend.rs:791-840 | the output is the mode's exactly when there is a pool and 32 rows, and the scalar oracle's otherwise |
| AttentionDispatch.ScaledDotProduct | crates/kernels/src/cpu_backend.rs:189-244 | causal grouped attention is the scalar oracle, bit for bit, in every mode, with or without a pool |
| AttentionDispatch.CrossAttention | crates/kernels/src/cpu_backend.rs:1031-1084 | the output is the mode's, whichever form is dispatched |
| AvxAgreement.NarrowHead | crates/kernels/src/cpu_avx2.rs:54-127 | with no vector filled a head has the same bits in every mode |
| AttentionBits.NarrowPool | crates/kernels/src/cpu_backend.rs:785-840 | on any float type, the pool keeps the encoder's bits when no vector is filled |
| AttentionBits.PoolShows | crates/kernels/src/cpu_backend.rs:785-840 | for every other shape rounded arithmetic and an input on which the pool changes the encoder's output |
| AttentionBits.EncoderPoolIff | crates/kernels/src/cpu_backend.rs:785-840 | pooled and serial encoder agree bit for bit on all inputs, for all operations whose zeros add to zero and for all roundings, if and only if the mode is not AVX2, or there are fewer than 32 rows, or heads are narrower than eight |
| AttentionBits.RealPool | crates/kernels/src/cpu_backend.rs:785-840 | over the reals they always agree |
| AttentionShape.KvHeadBound | crates/kernels/src/attention.rs:634-643 | the grouped-query head index is a head of K and V |
| AttentionShape.GroupReads | crates/kernels/src/attention.rs:634-643 | with n query heads to a key/value head, query heads g * n to g * n + n - 1 read head g |
| AttentionShape.SeesVisible | crates/kernels/src/attention.rs:679-682 | the first row and the count of each mask are exactly its visible rows: all below a length, all up to r, all of r's block, or the last so many up to r |
| AttentionShape.ModeRowOffsets | crates/kernels/src/attention.rs:632-658 | the row of the specification is read at the flat offsets the kernels compute |
| AttentionTheorems.OutputIsLocal | crates/kernels/src/attention.rs:618-661 | an output row is determined by its query row and the K and V rows of its window, across shapes and buffers |
| AttentionTheorems.WideWindowIsCausal | crates/kernels/src/attention.rs:664-713 | a sliding window at least as long as the sequence gives full causal attention, bit for bit |
| AttentionMeaning.WindowIsLastCausalRow | crates/kernels/src/attention.rs:664-713 | a windowed row is the last row of causal attention over the rows of its window alone, bit for bit |
| AttentionTheorems.IncrementalIsCausalRow | crates/kernels/src/attention.rs:228-309 | one query over the first rows of K and V gives the corresponding row of full causal attention, bit for bit |
| AttentionTheorems.ExpandKvHeads | crates/kernels/src/cubecl_backend.rs:130-143 | the host loop copies source head g, at every token, to the n destination heads from g * n on |
| ExpandKernel.LaunchExpand | crates/kernels/src/cubecl_backend.rs:3047-3066 | so does the kernel, one thread a cell, in any order and with surplus threads |
| AttentionMeaning.ExpandedIff | crates/kernels/src/cubecl_backend.rs:130-143 | and that determines the copy |
| AttentionTheorems.ExpansionIsIndexing | crates/kernels/src/attention.rs:144-192 | attention over expanded heads equals grouped-query attention over the original ones |
| AttentionMeaning.OutputIsAverage | crates/kernels/src/attention.rs:618-713 | over the reals, for every mask, grouping and mode, output cell (r, g * n + i, d) is the average of cell d of head g of the visible rows, weighted by the exponentials of their scores, all at flat offsets |
| FlashKernels.Stream | crates/kernels/src/cubecl_backend.rs:2096-2135 | one thread's loop leaves the online state of its visible keys, skipping masked ones |
| FlashKernels.FlashBody | crates/kernels/src/cubecl_backend.rs:1842-1907 | one thread writes its head row with the one-pass value and its lane of shared memory, whatever that held, and no other cell |
| FlashKernels.KernelThread | crates/kernels/src/cubecl_backend.rs:1758-1830 | a thread of the rounded-up grid writes its own block and its own lane of its workgroup's slab or, when surplus, nothing |
| FlashKernels.Launch | crates/kernels/src/cubecl_backend.rs:2071-2146 | every order of threads leaves the one-pass value in every block |
| FlashKernels.LaunchIsOracle | crates/kernels/src/cubecl_backend.rs:2722-2793 | over the reals the launched kernels and the two-pass bodies, in the arithmetic of any mode, leave the same buffer |
| AvxExact.LanesHoldAll | crates/kernels/src/cpu_avx2.rs:54-76 | eight fused lanes together hold every product of the vectorised prefix |
| AvxExact.AvxDotIsDot | crates/kernels/src/cpu_avx2.rs:54-76 | over the reals the lane sum plus tail is the dot product |
| AvxExact.AvxLayerIsScalar | crates/kernels/src/cpu_avx2.rs:141-397 | over the reals AVX2 and scalar linear layers agree in every cell |
| LinearKernels.DotAvx2 | crates/kernels/src/cpu_avx2.rs:54-76 | the loop computes eight interleaved fused sums, reduced and followed by a scalar tail |
| AvxAttention.ScoresAvx2 | crates/kernels/src/lib.rs:1329-1361 | the scratch prefix holds the scaled vector score of every visible key |
| AvxAttention.WeightedSumAvx2 | crates/kernels/src/cpu_avx2.rs:92-127 | every output lane is a fused sum over the keys, every tail lane a plain one, and nothing else changes |
| AvxAttention.HeadBodyAvx2 | crates/kernels/src/lib.rs:985-1054 | one head of one row in AVX2 mode, for any scratch contents |
| AvxAttention.AvxIsOracle | crates/kernels/src/cpu_avx2.rs:54-127 | over the reals one head in AVX2 mode is the two-pass oracle |
| AvxAttention.RealHeadValue | crates/kernels/src/lib.rs:949-1061 | so over the reals the mode changes no output |
| CacheAttend.CacheHost | crates/kernels/src/lib.rs:1196-1252 | the serial cache form writes attention over the visible prefix in every mode, from locals or from lanes |
| CacheAttend.CachePooled | crates/kernels/src/lib.rs:1255-1326 | so does the pooled one, a task a head in any order |
| CacheAttend.AttendPrefix | crates/kernels/src/cpu_backend.rs:881-960 | whichever form is dispatched, the output is the same bits |
| CacheDecode.AppendRow | crates/kernels/src/lib.rs:356-368 | one row of the cache is replaced and every other row kept |
| CacheDecode.AppendAndAttend | crates/kernels/src/cpu_backend.rs:966-1027 | the step is refused exactly on a bad shape and then changes nothing; otherwise the row is appended and the output is attention over the prefix |
| CacheDecode.StepAttendsRows | crates/kernels/src/lib.rs:1196-1252 | attention over a grown cache is, in its mode's arithmetic, the newest query over the rows of the run so far |
| CacheDecode.NarrowStepIsCausal | crates/kernels/src/lib.rs:1399-1441 | where no vector is filled, that is the row of full causal attention, which is scalar in every mode, bit for bit |
| CacheDecode.RealStepIsCausal | crates/kernels/src/lib.rs:1399-1441 | over the reals it is that row in every mode |
| CacheDecode.DecodeRun | crates/kernels/src/lib.rs:732-777 | from any initial cache, pooled or not, step t of a run attends rows 0 to t in its mode's arithmetic, and outputs row t of full causal attention bit for bit where no vector is filled; the cache prefix is K and V so far and the tail is never changed |
| AttentionBits.FusedStepShows | crates/kernels/src/lib.rs:1196-1252 | under some operations every AVX2 step with a filled vector differs from its causal row, whatever the inputs |
| AttentionBits.RoundedStepShows | crates/kernels/src/cpu_avx2.rs:92-127 | rounded arithmetic and inputs on which every AVX2 step from the second on differs from its causal row |
| RoundedWitness.HeadsPart | crates/kernels/src/cpu_avx2.rs:92-127 | because fused products, rounded once, and plain ones, rounded twice, leave one head different |
| AttentionBits.DecodeIff | crates/kernels/src/lib.rs:598-624 | every step of every run of a shape is its row of full causal attention, bit for bit under all operations whose zeros add to zero, if and only if the mode is not AVX2 or heads are narrower than eight |
| AttentionBits.RoundedDecodeIff | crates/kernels/src/lib.rs:598-624 | under all roundings, with an exponential that is one at zero and values the format holds, if and only if that or the run is one step long |
| AppendRace.Step | crates/kernels/src/cubecl_backend.rs:2528-2601 | one shared access of one thread keeps memory and program counter well formed |
| AppendRace.RowWrite | crates/kernels/src/cubecl_backend.rs:2552-2557 | a write into one head row is invisible in every other |
| AppendRace.StepIsLocal | crates/kernels/src/cubecl_backend.rs:2528-2601 | a thread's step depends on its own cells only and no other thread's cells change |
| AppendRaceProof.StepKeepsInv | crates/kernels/src/cubecl_backend.rs:2528-2601 | every step of a thread keeps its copy, score, load, mix and store invariant |
| AppendRaceProof.ExecIsAlone | crates/kernels/src/cubecl_backend.rs:2528-2601 | under every interleaving a thread's cells and registers are what it alone would have made of them |
| AppendRaceProof.SchedulesAgree | crates/kernels/src/cubecl_backend.rs:2528-2601 | schedules that give each thread the same number of turns are indistinguishable |
| AppendRaceProof.EveryScheduleAppendsThenAttends | crates/kernels/src/cubecl_backend.rs:2528-2601 | a thread is done exactly after its budget of turns, and then its slot is one-pass attention over the appended cache |
| AppendRaceProof.ExecKeepsOtherRows | crates/kernels/src/cubecl_backend.rs:2552-2557 | no interleaving touches a cache row other than the appended one |
| AppendRaceProof.FinalIsAppended | crates/kernels/src/cpu_backend.rs:966-1027 | the rows a thread attends are those of the sequential append |
| AppendRaceProof.EveryScheduleIsOracle | crates/kernels/src/cubecl_backend.rs:2528-2601 | over the reals every interleaving ends in the two-pass oracle over the appended cache |
| AttendRace.EveryScheduleAttends | crates/kernels/src/cubecl_backend.rs:2378-2450 | the cache kernel that does not append: under every interleaving a finished thread's slot is one-pass attention over the cache |
| AttendRace.FusedIsCopyThenAttend | crates/kernels/src/cubecl_backend.rs:2528-2601 | the fused kernel under any interleaving leaves the bits of copying the row and running the cache kernel under any other |
| KQuantSums.IntDotShift | crates/kernels/src/k_quant.rs:412-417 | weights shifted by a constant change a dot product by that constant times the plain sum |
| KQuantSums.ChunkSum | crates/kernels/src/k_quant.rs:402-406 | four products are summed without leaving i32 |
| KQuantQ6.UnpackQ6 | crates/kernels/src/k_quant.rs:377-393 | every value is its nibble and two high bits, each index written once |
| KQuantQ6.RawLanes | crates/kernels/src/k_quant.rs:395-410 | the lanes together hold the dot product without the zero point |
| KQuantQ6.ZeroPointsCorrect | crates/kernels/src/k_quant.rs:412-417 | 32 times the scaled group sums is exactly what the weights are short of |
| KQuantQ6.BlockLanes | crates/kernels/src/k_quant.rs:366-426 | whatever each lane holds, the lanes of a block sum to the exact integer dot product |
| KQuantFormat.Quarters | crates/kernels/src/k_quant.rs:380-392 | which nibble and which two bits the values at l, l + 32, l + 64 and l + 96 of a half are |
| KQuantFormat.Q6RoundTrip | crates/kernels/src/k_quant.rs:377-393 | 256 six-bit values packed by the format are the values the kernel reads |
| KQuantFormat.Q6BlockRoundTrip | crates/kernels/src/k_quant.rs:377-393 | and any 192 bytes are the packing of the values read from them |
| KQuantQ45.ScalesRoundTrip | crates/kernels/src/k_quant.rs:428-439 | unpacking the six-bit scales and minima returns what was packed |
| KQuantQ45.BytesRoundTrip | crates/kernels/src/k_quant.rs:428-439 | every twelve bytes are the packing of what they unpack to, so each bit is used once |
| KQuantQ45.Q6BytesRoundTrip | crates/kernels/src/k_quant.rs:383-392 | the four six-bit values of a pass fill their three bytes exactly |
| KQuantQ45.BlockLanesQ4 | crates/kernels/src/k_quant.rs:263-282 | the lanes of a Q4_K block sum to the scaled dot product |
| KQuantQ45.MinSumIsDot | crates/kernels/src/k_quant.rs:252-261 | the minimum term taken from sixteen-wide sums is the per-element one |
| KQuantQ45.UnpackQ5 | crates/kernels/src/k_quant.rs:306-323 | every value is its nibble with the fifth bit of its own plane on top |
| KQuantQ45.BlockLanesQ5 | crates/kernels/src/k_quant.rs:306-344 | the lanes of a Q5_K block sum to the scaled dot product |
| KQuantBlocks.Q4RoundTrip | crates/kernels/src/k_quant.rs:263-282 | nibbles packed by the format are the nibbles the kernel reads |
| KQuantBlocks.Q4BytesRoundTrip | crates/kernels/src/k_quant.rs:263-282 | and any 128 bytes are the packing of theirs |
| KQuantBlocks.Q5RoundTrip | crates/kernels/src/k_quant.rs:306-323 | the same of five-bit values, whose fifth bits lie in eight bit planes |
| KQuantBlocks.Q5BytesRoundTrip | crates/kernels/src/k_quant.rs:306-323 | and of any 160 bytes |
| KQuantBlocks.Dequantised6 | crates/kernels/src/k_quant.rs:366-426 | a Q6_K block written field by field stands for d * scale * (value - 32), with one signed scale to sixteen values |
| KQuantBlocks.Dequantised4 | crates/kernels/src/k_quant.rs:238-290 | a Q4_K block written field by field stands for d * scale * value - dmin * minimum, with one of each to 32 values |
| KQuantBlocks.Dequantised5 | crates/kernels/src/k_quant.rs:292-352 | so does a Q5_K block |
| KQuantBlocks.EveryQ6Block | crates/kernels/src/k_quant.rs:366-426 | every 210 bytes are such a Q6_K block |
| KQuantBlocks.EveryQ4Block | crates/kernels/src/k_quant.rs:238-290 | every 144 bytes are such a Q4_K block |
| KQuantBlocks.EveryQ5Block | crates/kernels/src/k_quant.rs:292-352 | every 176 bytes are such a Q5_K block |
| KQuantRows.RealDotAffine | crates/kernels/src/k_quant.rs:284-289 | the real dot product splits into the scale part and the minimum part the kernels accumulate apart |
| KQuantRows.VecDotQ6 | crates/kernels/src/k_quant.rs:366-426 | for any blocks and any bytes the result is the dot product of the dequantised rows |
| KQuantRows.VecDotQ4 | crates/kernels/src/k_quant.rs:238-290 | the same for Q4_K, with the minimum term |
| KQuantRows.VecDotQ5 | crates/kernels/src/k_quant.rs:292-352 | the same for Q5_K, with the fifth bit |
| KQuantLoader.LoadBlock4 | crates/loader/src/gguf_values.rs:435-460 | the loader's own unpacking appends the values the block stands for |
| KQuantLoader.LoadBlock5 | crates/loader/src/gguf_values.rs:462-508 | so does that of Q5_K, with its two masks moved two planes at a time |
| KQuantLoader.LoadBlock6 | crates/loader/src/gguf_values.rs:510-545 | so does that of Q6_K, which writes four quarters at once |
| KQuantLoader.DequantizePayload | crates/loader/src/gguf_values.rs:346-433 | a payload is refused exactly when rows or elements are not whole blocks or its length is wrong; otherwise it loads block by block |
| KQuantLoader.KernelIsLoader | crates/kernels/src/k_quant.rs:238-426 | over the reals what a kernel returns for packed bytes is the plain dot product with the values the loader returns for them |
| Rounding.RoundingIsUnique | crates/kernels/src/k_quant.rs:441-444 | there is one integer nearest with ties to even |
| KQuantQuantize.NearestInt | crates/kernels/src/k_quant.rs:441-444 | the magic-constant trick is roundTiesToEven on its stated range |
| KQuantQuantize.QuantizeBlock | crates/kernels/src/k_quant.rs:186-234 | a finite block is refused exactly when its scale overflows; otherwise, over the reals, it is quantised within amax / 254 of each value, with its group sums |
| KQuantQuantize.SmallBlockRefused | crates/kernels/src/k_quant.rs:209-215 | a block of 1e-37 is normal and refused |
| KQuantQuantize.QuantizeRow | crates/kernels/src/k_quant.rs:182-236 | a row is refused exactly when some block holds a value that is not finite or is too small to scale; the first such block decides the error, and the i8 error cannot happen |
| KQuantQuantize.RowError | crates/kernels/src/k_quant.rs:118-123 | over the reals one quantised dot product is within the blocks' tolerances times the weights' absolute sums of the exact one, for any weights |
| KQuantLayer.F16LeAt | crates/kernels/src/k_quant.rs:446-449 | the number read from two bytes is the one they encode |
| KQuantLayer.KnownNumbers | crates/kernels/src/k_quant.rs:446-479 | the bytes of one, minus two, 65504 and the least subnormal, low byte first, and the bits of a single one |
| KQuantLayer.LinearQ8K | crates/kernels/src/k_quant.rs:28-173 | the layer is refused exactly on a bad shape or at its first refused row, writing no row from there on; otherwise every output of every format is within the bound of the exact dot product |
| KQuantMeaning.OutputIsNear | crates/kernels/src/k_quant.rs:28-173 | every computed output (r, o) is within that bound of the plain sum of input (r, i) by weight (o, i) of the tensor as the loader dequantises it, at flat offsets |
| HalfFloat.Normalize | crates/kernels/src/k_quant.rs:460-467 | shifting a subnormal fraction up keeps its value and ends within ten places |
| HalfFloat.HalfToSingle | crates/kernels/src/k_quant.rs:451-479 | widening keeps sign and value of every finite number, and infinities and NaN payloads |
| LinearKernels.ScalarTile | crates/kernels/src/lib.rs:2325-2398 | the sixteen registers of a 4x4 tile are sixteen cell folds from the bias |
| LinearKernels.AvxTile | crates/kernels/src/cpu_avx2.rs:165-300 | the tile's vectors and tails are sixteen lane-wise cells |
| LinearNest.TiledNest | crates/kernels/src/lib.rs:2306-2455 | tiles, column tails and row tails together write every cell of the chunk once with its class of formula, and nothing else |
| LinearNest.OptimizedNest | crates/kernels/src/lib.rs:2548-2571 | the column-outer form writes the same left folds |
| LinearParallel.ChunkClass | crates/kernels/src/lib.rs:2738-2758 | a chunk on a tile boundary keeps the tile or tail class of all its rows if and only if it is whole tiles or leaves no whole tile behind |
| LinearParallel.ChunkWant | crates/kernels/src/lib.rs:2738-2758 | so each cell of a chunk has the value it has in the whole matrix, in every mode |
| LinearParallel.RowParallel | crates/kernels/src/lib.rs:2715-2812 | row chunks on any threads in any order write the serial result bit for bit |
| LinearParallel.OutputParallel | crates/kernels/src/lib.rs:2601-2676 | so do output-axis chunks of a single row |
| LinearParallel.LinearOutByIn | crates/kernels/src/cpu_backend.rs:120-186 | whichever path is dispatched, the output is the serial one; it fails exactly on the row-chunked path with no outputs |
| LinearParallel.CompleteIsUnique | crates/kernels/src/lib.rs:2715-2812 | the specification fixes every cell, so any two dispatches agree |
| LinearParallel.ScalarIsOptimized | crates/kernels/src/lib.rs:2458-2571 | tiled scalar and column-outer layers agree bit for bit on every shape |
| LinearMeaning.LinearIsSum | crates/kernels/src/lib.rs:2306-2571 | over the reals and in every mode, cell (r, o) is the bias plus the sum of input (r, i) by weight (o, i), all at flat offsets |
| Matmul.ScalarRow | crates/kernels/src/lib.rs:2189-2199 | a row of the product is the fold of its row by every column |
| Matmul.OptimizedRow | crates/kernels/src/lib.rs:2215-2227 | the K-outer row ends in the same folds |
| Matmul.Parallel | crates/kernels/src/lib.rs:2819-2861 | row chunks in any order, in either mode, write every row's folds; it panics exactly when there are no columns |
| Matmul.MatMul | crates/kernels/src/cpu_backend.rs:94-117 | serial or pooled, the product is the same, except for that panic |
| Matmul.FormsAgree | crates/kernels/src/lib.rs:2189-2227 | scalar, K-outer and chunked products leave the same bits |
| LinearMeaning.ProductIsSum | crates/kernels/src/lib.rs:2189-2227 | over the reals cell (i, j) is the sum of (i, p) by (p, j), at flat offsets |
| RegTile.LoadSlotOwner | crates/kernels/src/cubecl_backend.rs:3290-3317 | each tile slot is filled by exactly one load of exactly one thread |
| RegTileProof.ReadersMeetNoWriter | crates/kernels/src/cubecl_backend.rs:3288-3342 | while a thread reads the tiles, every thread of its workgroup is between the same two barriers |
| RegTileProof.Visible | crates/kernels/src/cubecl_backend.rs:3318-3332 | a reader of chunk c finds chunk c's value in every slot |
| RegTileProof.MacFolds | crates/kernels/src/cubecl_backend.rs:3333-3339 | the products of one k advance every register by one input of the fold |
| RegTileProof.StepKeepsGroup | crates/kernels/src/cubecl_backend.rs:3242-3355 | every step of every thread keeps the workgroup's invariant |
| RegTileGrid.NoRace | crates/kernels/src/cubecl_backend.rs:3288-3342 | in no reachable state are two threads about to touch one slot with one of them writing |
| RegTileGrid.SomeThreadCanStep | crates/kernels/src/cubecl_backend.rs:3318-3341 | the barriers cannot deadlock |
| RegTileGrid.WriterExists | crates/kernels/src/cubecl_backend.rs:3344-3354 | every in-range output cell belongs to a register of a thread of a launched workgroup |
| RegTileGrid.WriterIsUnique | crates/kernels/src/cubecl_backend.rs:3344-3354 | and to only one |
| RegTileRun.StepKeepsGrid | crates/kernels/src/cubecl_backend.rs:3242-3355 | every step of the launch keeps the invariant of all workgroups and of the shared output |
| RegTileRun.TakenCountsDown | crates/kernels/src/cubecl_backend.rs:3242-3355 | every step taken is one of a fixed number, so no run goes on for ever |
| RegTileRun.EveryRunFoldsEveryCell | crates/kernels/src/cubecl_backend.rs:3242-3355 | under every schedule a run can go on until its steps are used up, and then every output cell is the fold from the bias over the padded inputs |
| RegTileRun.EveryRunIsScalar | crates/kernels/src/cubecl_backend.rs:3432-3458 | the finished output is the scalar kernel's, bit for bit, whenever chunks divide the inputs or padding adds nothing |
| RegTileExact.FinishingRun | crates/kernels/src/cubecl_backend.rs:3242-3355 | every run can be continued to a finished one |
| RegTileExact.DividedIsScalar | crates/kernels/src/cubecl_backend.rs:3282-3336 | when chunks divide the inputs, every finished run leaves the scalar kernel's output bit for bit, on any float type |
| RegTileExact.BitForBitIff | crates/kernels/src/cubecl_backend.rs:3282-3336 | every finished run of every product of a shape is the scalar kernel's bit for bit if and only if the chunks divide the inputs |
| RegTileExact.SignedZeroDiffers | crates/kernels/src/cubecl_backend.rs:3296-3312 | for every shape whose chunks do not divide the inputs, biases and products of -0 leave -0 in every cell of the scalar kernel and +0 in every cell of every finished run |
| RegTileExact.EveryRunIsPlain | crates/kernels/src/cubecl_backend.rs:3242-3355 | over the reals every finished run leaves bias plus dot product, padded or not |
| RegTileRun.DivisibilityIsValid | crates/kernels/src/cubecl_backend.rs:3258-3287 | the stated divisibility is exactly what the kernel needs of its tile parameters |
| RegTileRun.ShippedTiles | crates/kernels/src/cubecl_backend.rs:3357-3365 | the shipped 64 by 64 by 8 tiles with 4 by 4 registers satisfy it |
| Rope.RotateHead | crates/kernels/src/rope.rs:93-104 | both cells of each pair are rotated from their old values, in place, and nothing else changes |
| Rope.ApplyRopeTables | crates/kernels/src/rope.rs:93-104 | every head of the slice is rotated by the same tables |
| Rope.RopeTrigTables | crates/kernels/src/rope.rs:163-183 | the tables hold the cosine and sine of position times inverse frequency |
| Rope.FactoredTables | crates/kernels/src/rope.rs:185-206 | and of the frequency divided by its factor in the factored variant |
| Rope.RopeApplyInplace | crates/kernels/src/rope.rs:61-72 | a badly shaped slice is refused and left alone; any other is rotated head by head |
| Rope.FactorsChecked | crates/kernels/src/rope.rs:106-132 | exactly the first half of the factors are checked, and the first bad one is reported |
| Rope.RopeApplyFactored | crates/kernels/src/rope.rs:78-91 | refused on a bad shape or factor and left alone; otherwise rotated by the factored tables |
| Rope.LaunchRope | crates/kernels/src/cubecl_backend.rs:3011-3039 | one thread a pair, in any order, writes every rotated row |
| RopeRotation.BatchIsHost | crates/kernels/src/cubecl_backend.rs:3011-3039 | the batched kernel's row is the host's for its position and head |
| RopeRotation.RopedAt | crates/kernels/src/rope.rs:93-104 | cells i and i + half turn by position times frequency i, from the lower towards the upper |
| RopeRotation.RotationsCompose | crates/kernels/src/rope.rs:93-104 | embedding at m and then at n is embedding at m + n |
| RopeRotation.DotKept | crates/kernels/src/rope.rs:93-104 | equal positions cancel in a dot product, so norms are kept |
| RopeRotation.DotIsRelative | crates/kernels/src/rope.rs:93-104 | the dot product of a query at m and a key at n is that of the query at m - n and the bare key |
| RopeRotation.ZeroIsIdentity | crates/kernels/src/rope.rs:31-37 | position zero is the identity |
| RopeRotation.FactoredLaws | crates/kernels/src/rope.rs:185-206 | the laws of rotation hold of the factored angles, so all of these theorems do |
| RopeRotation.UnitFactors | crates/kernels/src/rope.rs:74-91 | factors of one leave the plain embedding |
| RopeRotation.FactorsStretch | crates/kernels/src/rope.rs:195-203 | with factors of c, position c * p turns as far as position p does without |
| RopeRotation.AttentionIsShiftInvariant | crates/kernels/src/rope.rs:93-104 | moving a query and all its keys along together leaves attention as it was |
| Conv.OutputsFit | crates/kernels/src/conv.rs:31-33 | exactly which positions are outputs, with the oversize-kernel case |
| Conv.SameLengthIff | crates/kernels/src/conv.rs:223-227 | kernel 2p + 1 at stride 1 with padding p keeps the length if and only if there is one |
| Conv.PatchTap | crates/kernels/src/conv.rs:86-111 | tap (channel, ky, kx) of a cell is the zero-padded image under it |
| Conv.Im2col | crates/kernels/src/conv.rs:86-111 | the patch matrix holds every tap row of every cell, zero outside the border |
| Conv.RowIsPatch | crates/kernels/src/conv.rs:86-111 | a row of the patch matrix is the patch of its cell |
| ConvDense.Transpose | crates/kernels/src/conv.rs:125-130 | cell-major becomes channel-major, every cell moved once |
| ConvDense.Conv2d | crates/kernels/src/conv.rs:44-132 | refused exactly on a bad shape; otherwise every output is the fold of the zero-padded taps by its filter, from the bias |
| ConvMeaning.DenseIsSum | crates/kernels/src/conv.rs:44-132 | over the reals output (oc, oy, ox) is the bias plus the sum over channels and taps of weight times the pixel at (oy * sh + ky - ph, ox * sw + kx - pw), zero outside the image, all at flat offsets |
| ConvMeaning.OneTapShifts | crates/kernels/src/conv.rs:44-132 | so a filter of a single one returns its channel shifted by its tap and sampled at the strides |
| ConvMeaning.OneByOneCopies | crates/kernels/src/conv.rs:44-132 | and a 1x1 filter of one copies its channel |
| ConvDepthwise.DepthwiseConv2d | crates/kernels/src/conv.rs:141-219 | refused exactly on a bad shape; otherwise every output folds its own channel's taps inside the image |
| ConvMeaning.DepthwiseIsSum | crates/kernels/src/conv.rs:141-219 | over the reals the same sum over the taps of its own channel |
| ConvMeaning.OwnTapShifts | crates/kernels/src/conv.rs:141-219 | so a filter of a single one shifts and samples its own channel |
| ConvTheorems.DepthwiseCellIsDense | crates/kernels/src/conv.rs:134-139 | a depthwise cell is the dense cell with weights zero outside its own channel, wherever zero products add nothing |
| ConvTheorems.DepthwiseIsBlockDiagonal | crates/kernels/src/conv.rs:44-219 | depthwise and block-diagonal dense convolution leave the same output wherever zero products add nothing |
| ConvTheorems.RealDepthwiseIsBlockDiagonal | crates/kernels/src/conv.rs:44-219 | over the reals they always do |
| ConvTheorems.DepthwiseConv1d | crates/kernels/src/conv.rs:228-284 | exactly when it is refused, panics on a short bias, or finishes; finished, it is the 2-D form on a signal one row high |
| Checked.CheckedProductExact | crates/core/src/lib.rs:741-746 | a product is reported exactly when every partial product fits a usize |
| Checked.ProductOverflowIff | crates/core/src/lib.rs:741-746 | without zeros, exactly when the product itself fits |
| Checked.ZeroDoesNotSave | crates/core/src/lib.rs:741-746 | an overflow before a zero factor is still refused |
| KvLayout.OffsetExact | crates/core/src/lib.rs:610-634 | an offset is reported exactly when layer and position exist and the layer tensor and the offset fit |
| KvLayout.RepresentableNeverErrs | crates/core/src/lib.rs:576-634 | when all key tensors fit, no in-range offset errs and every row lies inside the tensor |
| KvLayout.BlocksTile | crates/core/src/lib.rs:558-634 | every cell of the key tensor lies in the block of exactly one layer and position |
| KvLayout.PagesCover | crates/core/src/lib.rs:670-678 | the page count is the least that covers the tokens, and errs only on overflow |
| KvLayout.ValidatePageTable | crates/core/src/lib.rs:700-723 | a table passes if and only if it is long enough, in range and without repeats |
| KvLayout.PhysicalIsInjective | crates/core/src/lib.rs:680-723 | under an accepted table positions have distinct physical slots inside the pool |
| KvStores.ContiguousKvCache.WriteLayerKv | crates/runtime/src/kv_cache.rs:91-111 | accepted exactly on a live cache with full rows in range; then one key row and one value row change |
| KvStores.ContiguousKvCache.SetLenTokens | crates/runtime/src/kv_cache.rs:79-89 | a length beyond capacity is refused before anything changes |
| KvStores.CopyContiguousLayer | crates/runtime/src/kv_cache.rs:372-400 | the visible rows of the layer in order; refused reads leave the buffer alone |
| KvPaged.TensorValuesExact | crates/runtime/src/kv_cache.rs:135-151 | the constructor's sizes are refused exactly when the tensor does not fit a usize |
| KvPaged.StorageOffsetIs | crates/runtime/src/kv_cache.rs:190-217 | the paged offset is the flat offset among whole pages, and never overflows |
| KvPaged.CopyPagedLayer | crates/runtime/src/kv_cache.rs:402-430 | the same rows in the same order as the contiguous read |
| KvPaged.PagedKvCache.WriteLayerKv | crates/runtime/src/kv_cache.rs:241-261 | the same effect on the rows as the contiguous write |
| KvScript.AnswerIsDetermined | crates/core/src/lib.rs:726-739 | the store's rows fix the answer to every call and what it leaves behind |
| KvScript.RunBoth | crates/runtime/src/kv_cache.rs:70-272 | any script of calls gets the same replies from the contiguous and the paged cache |
| KvAllocator.PutBack | crates/runtime/src/kv_cache.rs:339-350 | pages returned after a failed construction sort back into the list they came from |
| KvAllocator.RunConserves | crates/runtime/src/kv_cache.rs:275-359 | after any allocations and releases the free list and the live tables are the pool, page for page |
| KvAllocator.NoPageIsShared | crates/runtime/src/kv_cache.rs:307-358 | live tables and the free list hold distinct pages and share none |
| KvAllocator.TakesLeast | crates/runtime/src/kv_cache.rs:322-329 | an allocation takes the least of the free pages |
| KvAllocator.PagedKvCacheAllocator.Allocate | crates/runtime/src/kv_cache.rs:307-351 | granted exactly when in range, enough pages are free and the tensor fits; a refusal on any path leaves the pool as it was |
| KvAllocator.PagedKvCacheAllocator.Release | crates/runtime/src/kv_cache.rs:353-358 | the cache's pages go back in order and its rows are gone |
| Tdt.GreedyDecode | crates/models/src/parakeet/decoder.rs:347-416 | equals the unlimited run if that fits the step limit, and errs exactly otherwise or when the symbol budget is zero |
| Tdt.ReferenceDecode | fixtures/asr/dump_decoder_reference.py:89-150 | the reference loop equals the same run under its own limit |
| TdtTiming.EveryRunIsTimed | fixtures/asr/dump_decoder_reference.py:89-150 | the first frame is 0 and each next one is the last plus its duration, or plus one when the duration is zero and the token was blank or the frame's cap-th, or the same; token and duration are what the networks give for the frame, the last token and the state |
| TdtTiming.DecodeIsUnique | crates/models/src/parakeet/decoder.rs:373-415 | a list of steps obeys those rules up to the end of the recording if and only if it is the run's |
| TdtTiming.StateIsFed | crates/models/src/parakeet/decoder.rs:373-403 | the state is the prediction network fed blank and then every token but the last |
| TdtTiming.ConstantStrides | crates/models/src/parakeet/decoder.rs:400-412 | networks that always say one token and a positive duration emit it at every multiple of that duration below the last frame, and nowhere else |
| Tdt.StepKeepsGood | fixtures/asr/dump_decoder_reference.py:89-150 | every step keeps the bounds on steps, timestamps and symbols and the account of tokens and state |
| Tdt.EveryDecode | fixtures/asr/dump_decoder_reference.py:89-150 | at most cap steps a frame; timestamps ordered, in range, at most cap alike; tokens are the non-blank steps; the state is the fold over blank and every token but the last |
| Tdt.LimitNeverFiresIff | crates/models/src/parakeet/decoder.rs:362-372 | no networks can use up the limit if and only if it allows cap steps a frame |
| Tdt.GuardsInFrames | fixtures/asr/dump_decoder_reference.py:148-150 | 20000 steps are safe exactly up to 2000 frames, 100000 up to 10000 |
| Tdt.LongerContinues | fixtures/asr/dump_decoder_reference.py:89-150 | frames appended to a recording only append tokens |
| Wave.ParseWavLayout | src/main.rs:882-941 | the chunk walk terminates with the walk's result and no checked addition can fail |
| Wave.WalkFinds | src/main.rs:894-925 | a file written from any chunks is walked to the last fmt and the last data of them |
| Wave.AcceptsExactly | src/main.rs:882-941 | the parser accepts exactly a header, padded chunks with a long enough fmt and a data, and a rest too short for another chunk |
| Wave.FindIsLast | src/main.rs:907-920 | the last fmt chunk's fields and the last data chunk's place win |
| Wave.DataInside | src/main.rs:882-941 | a reported data range lies inside the file |
| WaveSamples.ParseMono | src/main.rs:841-880 | accepted exactly when the layout is mono and whole 16-bit PCM or 32-bit float samples; each value is its bytes' integer over 32768, or its bytes' bit pattern |
| WaveSamples.ReadsExactly | src/main.rs:841-941 | the files read are exactly the written chunk lists whose last fmt and last data make such a recording |
| WaveSamples.RecordingRoundTrips | src/main.rs:841-989 | a mono recording of either kind among any other chunks is read back sample for sample |
| WaveSamples.FractionsDiffer | src/main.rs:952-954 | no two recordings are read alike |
| WaveSamples.NamesInLetters | src/main.rs:882-920 | the chunk names the walk looks for are RIFF, WAVE, fmt and data in letters |
| WaveSamples.OneSampleIsRead | src/main.rs:841-989 | the 46 bytes of a recording of one sample, -32768, given byte by byte, read as minus one at 16000 a second |

## Left out

- Concrete single-precision rounding, NaN and infinity: operations are uninterpreted, real, or real
  and rounded (`Rounding.RoundOps`, where the exponential is a parameter and nothing overflows). The one rounding
  modelled at its single-precision spacing is the addition inside `NearestInt`, where that is one.
- Exponential, cosine, sine and powers are parameters; over the reals division by zero yields zero so that
  `RealOps` is total, and no theorem divides by zero.
- HalfFloat.HalfToSingle: shifts and bitwise ors of disjoint fields are written as sums of multiples, because
  the fields do not overlap.
- KQuantRows.VecDotQ6: products of block scales are real products and an `i32` lane above 2^24 is not rounded when
  it becomes a float, because float rounding is left out.
- KQuantRows.VecDotQ4: block scales come from a parameter over the reals, as in Q5_K and Q6_K.
- KQuantLayer.LinearQ8K: a weight row whose block scale is an infinity or a NaN has no real value; it is read as
  scale zero, and nothing is claimed of the float the code computes there.
- KQuantQuantize.QuantizeRow: the overflow of the scale is modelled exactly; the rounding of finite products and
  quotients is not.
- ConvDense.Conv2d: shape products are unbounded; the code multiplies them unchecked, so nothing is claimed of shapes
  whose products do not fit a usize.
- ConvDepthwise.DepthwiseConv2d: the same.
- FlashKernels.Launch: threads run one after another, in any order; each touches its own lane and block only.
  Interleavings of single accesses are proved for the cache kernels (`AttendRace`, `AppendRaceProof`).
- `Ops` is a record of functions, so an operation cannot depend on anything but its operands; flags and
  rounding modes are not modelled.
- Operands are assumed not to alias the output, as the Rust borrow rules and the device buffers guarantee.
- The GPU memory model: a step is one shared access and accesses are sequentially consistent. Without races this
  is what the barriers give.
- The older one-output-per-thread tiled product (crates/kernels/src/cubecl_backend.rs:3142-3226) and the
  untiled one: the same barriers with one register per thread.
- `attention_decoder_incremental_f32`, which copies past and new rows into scratch first: its attention step is
  `FlashKernels`.
- GELU, erf and tanh tables, layer norm, RMS norm, batch norm, LSTM cells and pooling: single loops.
- CubeCL clients, handles, readback, device residency, CPU feature detection and thread-pool construction.
- The ONNX session and the networks of the transducer: `Tdt.Net` is any function of frame, previous token and
  state, and the next state is a function of the previous token and state.
- The loader's dense types, its files and manifests, and its copy of the half-precision decoder, which is
  `HalfFloat`.
- `is_finite` of a rotary factor is a parameter of `Rope.RopeApplyFactored`.
- KvAllocator.PagedKvCacheAllocator.Release: says nothing of the allocator's order when handed a cache from another
  allocator, because ownership rules that out in a run.
- The sort of the free list is a specified insertion sort; `sort_unstable` is not part of the repository.
- Error messages, dtype and device tags beyond the one the stores accept, and memory exhaustion.
- Command line, downloads, benchmarks, tokenizer, chat and model loading code.
