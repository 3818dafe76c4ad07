# FI scene-file parser, modelled in Dafny

The renderer reads its scene description, the "FI" file, into a fixed buffer of
`MAX_FILE_BUF_SIZE` (2048) bytes. `parseFieldInfo` then fills two descriptors.
The FieldInfoMap holds the medium constant `mat_c`, the point sources (`psn`,
`ps_loc`, `ps_freq`, `ps_phase`) and the field geometry (`fieldoffset`,
`fielddims`, `fieldsize`). The FieldDataMap holds a `written` flag and the
bounds `field_max` and `field_min`. The file is a sequence of `[Name data ...]`
blocks, and the parser works in three layers:

- **Bracket scanner.** One pass over the buffer records where up to
  `MAX_BLOCKS` (32) blocks start. It overwrites each closing `]` with NUL and
  returns 1 on a nested `[` or a stray `]`. It tracks line and column for that
  report.
- **Token decoders.** `parseData` splits a block's data with `strtok` on
  `" ,()\n"` and converts each token with `sscanf` into consecutive slots of a
  destination array, up to a requested count. `parsePointSource` reads one
  combined record: two coordinates, a frequency and a phase.
- **Dispatcher.** `parseBlock` matches the block name against eleven names and
  routes the data. Three process-wide fill counters let point-source data
  arrive either as combined records or as three separate streams. The counters
  are `current_point_source_loc`, `_freq` and `_phase`.

The model keeps the program's imperative form.

- **Buffer and strtok.** The text buffer is an `array<char>` updated in place.
  strtok's hidden saved pointer is an explicit cursor (`Tokenizer.Strtok`),
  which writes the NUL that ends each token into the buffer, as glibc does.
- **Descriptors.** Both descriptors are classes whose fields are fixed-length
  arrays (`FieldInfo`).
- **Counters.** The three global counters are fields of a `FiParser.Parser`
  object. It lives as long as the program and nothing resets it.
- **Specification functions.** Every loop is a method with invariants, proved
  against a pure function:
  - `Tokenizer.Tokens`, `Tokenizer.CutEnds` and `Decoder.Store` for the decoders;
  - `Dispatch.BlockEffect` for one block;
  - `Dispatch.RunBlocks` for the second loop of parseFieldInfo;
  - `BracketScanner.Scan` for the first loop.
- **Properties.** Lemmas state the properties of those functions, and each
  function also has a reference meaning in terms of the text:
  - `BracketScanner.Meaning`;
  - `Tokenizer.TokensShape` and `Tokenizer.TokensCover`;
  - `Dispatch.ClassifyIff`.

Several inputs drive the C code into undefined behaviour (MissingName,
TokenSlotOverrun, IndexPastCapacity) or into defined behaviour that is evidently
unintended (DataPastNul, EmptyLocationBlock). The model keeps the program's
behaviour wherever it is defined, and at each of these points records a
`Dispatch.Hazard` in the ghost log `Parser.hazards`:

- **MissingName** (undefined). A block with no name makes the program call
  `strlen(NULL)`. The model leaves everything unchanged and returns no count.
- **DataPastNul** (defined, unintended). The block's name is recognised and ends
  at a NUL, so its branch reads data from one past that NUL. The NUL may be the
  block's own closing bracket, when the name is followed by no data; the parser
  then reads the next block's text. It may also be a NUL that an earlier block's
  strtok calls wrote while reading on into this block; the data then still lies
  inside this block. The model reads on exactly as the program does in both
  cases. It is logged before any hazard the branch itself records. An unknown
  name forms the same pointer but reads nothing from it, so nothing is logged
  for it.
- **TokenSlotOverrun** (undefined). A fourth record token makes `parsePointSource` store
  a fifth `strtok` result into `tokens[4]`. That call still happens in the
  model; the store is only recorded.
- **IndexPastCapacity** (undefined). The combined-record index `max(loc, freq, phase)` can
  reach `MAX_POINT_SOURCE`. The model drops the writes that would fall outside
  the arrays.
- **EmptyLocationBlock** (defined, unintended). A `PointSource-Location` block
  that reads nothing still advances `loc` by one. It reads nothing either because
  it is empty, or because `loc` is already at or past 32, which makes the
  requested count `NUM_DIMS*(MAX_POINT_SOURCE-loc)` zero or negative. This can
  take `loc` past 32 and lead to the overruns above.

An unknown block name leaves parseBlock's count uninitialised. The model
returns `None` there.

## Model

| member | source | states |
|---|---|---|
| BracketScanner.ScanFrom | src/fi-parser.c:166-192 | The walk ends inside the buffer. A stop lies within it, and an error position is a real byte. |
| BracketScanner.ScanMeaning | src/fi-parser.c:166-196 | The walk's outcome means what the text says. On success the blocks are exactly the `[...]` blocks closed before the stop, in source order, at most 32, each starting one past its `[`; a block still open at the end is not counted. The walk stops at the buffer's end, or just past the 32nd `]`. On failure it reports the first disallowed bracket, which kind it is, and the zero-based line and column counted before it. |
| BracketScanner.PositionStep | src/fi-parser.c:186-191 | A newline increments the line and resets the column to 0. Any other byte increments the column. |
| BracketScanner.ScanFailsIffUnbalanced | src/fi-parser.c:166-185 | parseFieldInfo fails exactly when some bracket before the 32nd `]` is a `[` inside an open block or a `]` outside one. |
| BracketScanner.BlankClosesExactlyTheBlocks | src/fi-parser.c:168-169 | After a successful walk, the bytes turned into NUL are exactly the closing brackets of the blocks found. Every other byte is unchanged. |
| BracketScanner.ScanFromPrefix | src/fi-parser.c:166-192 | A walk that has settled by position k does not depend on anything at or after k. |
| BracketScanner.ScanIgnoresRestAfterLimit | src/fi-parser.c:166 | Once 32 blocks are found, the rest of the buffer is not scanned, not even for bracket errors. |
| BracketScanner.ScanErrorIgnoresRest | src/fi-parser.c:172-182 | A bracket error is reported the same way whatever follows the offending bracket. |
| FiParser.FindBlocks | src/fi-parser.c:163-196 | The first loop's result is what `Scan` says. On success, the block starts are recorded in order and their count is at most 32. On an error, the result is None. Either way, the buffer has exactly the closing brackets before the stop or the error replaced by NUL. |
| FiParser.BlocksReady | src/fi-parser.c:198-202 | After a successful walk, each recorded block starts inside the buffer and is ended by a NUL before the buffer's last byte. This is what makes each parseBlock call well defined. |
| Tokenizer.SkipDelims | src/fi-parser.c:94 | The start of the next token is the first byte at or after the cursor that is not a delimiter. Every byte skipped is a delimiter. |
| Tokenizer.TokenEnd | src/fi-parser.c:94 | A token ends at the first delimiter or NUL at or after its start. Every byte before that end is neither. |
| Tokenizer.NextToken | src/fi-parser.c:94 | When strtok returns NULL, the cursor rests on a NUL. A token it returns lies at or after the cursor, is non-empty and is ended by a delimiter or NUL. The next call resumes one past a delimiter, or at the NUL. |
| Tokenizer.NextTokenScan | src/fi-parser.c:94 | Only delimiters are skipped before the token, or before the NUL when there is none. The token holds neither a delimiter nor a NUL. |
| Tokenizer.TokensShape | src/fi-parser.c:35-47 | The successive tokens from a cursor are non-empty, delimiter-free and strictly ordered. Each token but the last is ended by a delimiter. |
| Tokenizer.TokensCover | src/fi-parser.c:35-47 | strtok misses nothing: every byte from the cursor on that is neither a delimiter nor NUL, with no NUL before it, lies inside one of the successive tokens. |
| Tokenizer.Strtok | src/fi-parser.c:94-95 | One strtok call on the array writes NUL over the byte ending the token. It returns the token and the cursor the next call resumes from, as `Next` defines them. |
| Tokenizer.NextTokenLocal | src/fi-parser.c:47 | strtok(NULL, …) depends only on the buffer from its saved cursor on. |
| Tokenizer.TokensLocal | src/fi-parser.c:47 | The whole token sequence from a cursor depends only on the buffer from that cursor on. |
| Tokenizer.CutKeepsTexts | src/fi-parser.c:35-47 | Cutting token ends leaves every token's text as it was. The strings strtok has returned stay valid. |
| Tokenizer.CutEndsChanges | src/fi-parser.c:35-47 | After a run of strtok calls, every byte that changed became NUL and is the end of a token returned, and every token end inside the buffer is NUL. A token end that was already NUL is not a change. |
| Tokenizer.NextTokenStopsAtNul | src/fi-parser.c:94 | strtok never runs past a NUL: a token found before a NUL ends at or before it. |
| Tokenizer.CutKeepsNuls | src/fi-parser.c:94 | A strtok cut keeps every NUL and keeps the buffer terminated. |
| Decoder.DataCountBounds | src/fi-parser.c:36-51 | parseData returns min(number of tokens, n), or 0 when n ≤ 0 or the element type is unknown. |
| Decoder.StoreNothing | src/fi-parser.c:38-44 | Failed conversions leave the destination unchanged. |
| Decoder.StoreWindow | src/fi-parser.c:36-48 | Only the window [base, base + count) of the destination can change. Inside it, slot base + i takes token i's conversion if it converts, and keeps its old value otherwise; the index still advances. |
| Decoder.Sscanf | src/fi-parser.c:37-45 | sscanf writes the destination slot only when the token converts. It returns EOF (-1) for a token made only of C white space, which writes nothing, and otherwise the match count, 1 or 0. |
| Decoder.ConvertAndAdvance | src/fi-parser.c:37-48 | One pass of parseData's loop stores the next token's conversion at target[base + i] and advances strtok to the next token. |
| Decoder.ParseData | src/fi-parser.c:29-52 | The count is min(#tokens, n), or 0 for n ≤ 0 or an unknown type. The destination becomes `Store` of the converted tokens from base, so nothing outside [base, base + n) is written. In the buffer, exactly the ends of the tokens read are cut, plus that of the one strtok call after the last. |
| Decoder.DataExit | src/fi-parser.c:36-51 | When parseData's loop stops, because the tokens ran out, n tokens were read or the type is unknown, the buffer, the destination and the count are those `DataEffect` gives. |
| Decoder.RecordParts | src/fi-parser.c:75-86 | The record's first two tokens are coordinates, the third is the frequency and the fourth the phase. Together they are the tokens read, in order. |
| Decoder.CollectRecord | src/fi-parser.c:63-70 | The collecting loop holds the first min(#tokens, 4) tokens of the block. strtok is called once more after the last of them. |
| Decoder.StoreRecordToken | src/fi-parser.c:75-86 | Record token i is stored as coordinate i, the frequency or the phase of source `index`. |
| Decoder.ParsePointSource | src/fi-parser.c:54-89 | The count is min(#tokens, 4). Token 1 goes to ps_loc[2·index], token 2 to ps_loc[2·index + 1], token 3 to ps_freq[index] and token 4 to ps_phase[index]; failed conversions change nothing, and later tokens are not read. In the buffer, exactly the ends of the first min(#tokens, count + 1) tokens are cut, one per strtok call that returned a token. |
| Dispatch.LookupSound | src/fi-parser.c:102-149 | The strcmp chain returns a name only when the text is exactly that name. |
| Dispatch.LookupFinds | src/fi-parser.c:102-149 | Text equal to a name further down the chain is found. |
| Dispatch.ClassifyIff | src/fi-parser.c:102-152 | A block name is recognised as n if and only if it is exactly n's string, case-sensitively. Any other text is unknown. |
| Dispatch.Max3IsMaximum | src/fi-parser.c:107-111 | The nested conditional yields the largest of the three counters. |
| Dispatch.CDivTruncates | src/fi-parser.c:125 | C's `/` truncates toward zero: the remainder has the dividend's sign and is smaller than the divisor. |
| Dispatch.LocationAdvanceValue | src/fi-parser.c:125 | `1 + (count - 1) / NUM_DIMS` in C arithmetic is count/2 rounded up for count ≥ 1, and 1 for an empty block. |
| Dispatch.NamedEffect | src/fi-parser.c:102-152 | A recognised block always returns a count. Every destination keeps its length, and so does the buffer. |
| Dispatch.BlockEffect | src/fi-parser.c:91-157 | A block keeps the buffer's length and every destination's length. |
| Dispatch.NamedBlockEffect | src/fi-parser.c:95-156 | Once the name is cut out, the buffer and destination lengths are kept. |
| Dispatch.UnknownBlockEffect | src/fi-parser.c:149-152 | An unknown name keeps only the strtok cut after the name. It returns no count, writes no destination, moves no counter and logs nothing. |
| Dispatch.RecognisedBlockEffect | src/fi-parser.c:95-148 | A recognised name's block is its branch run on the buffer with the name cut out, from one past the name's end. DataPastNul comes first in the log when that end was already NUL. |
| Dispatch.RecognisedBlock | src/fi-parser.c:94-148 | A recognised block has a name token that ends before the block's NUL. The block leaves the world, and returns the count, that its name's branch gives on the data after the name. |
| Dispatch.RunBlocks | src/fi-parser.c:198-202 | Parsing the blocks in order keeps every NUL in the buffer, so the buffer stays terminated, and keeps the destinations' lengths. |
| Dispatch.RunBlocksStep | src/fi-parser.c:200-201 | Each block is parsed on the buffer, descriptors and counters the previous blocks left. Its start is still followed by a NUL there. |
| Dispatch.BlockEffectKeepsNuls | src/fi-parser.c:91-157 | parseBlock only ever writes NULs into the buffer. |
| Dispatch.NamelessBlock | src/fi-parser.c:94-95 | A block with no name changes nothing and is logged as MissingName. |
| Dispatch.UnknownBlock | src/fi-parser.c:149-156 | An unknown name writes no destination and moves no counter. The count is uninitialised (None). |
| Dispatch.DataEffectWindow | src/fi-parser.c:29-52 | parseData's count is at most n, or 0 when n ≤ 0. Only [base, base + count) of the destination changes. |
| Dispatch.CombinedRecordBlock | src/fi-parser.c:106-118 | A PointSource block writes record i = max(loc, freq, phase) into ps_loc[2i..2i+2), ps_freq[i] and ps_phase[i] and nothing else, reading at most 4 tokens. All three counters become i + 1, or i if nothing was read. |
| Dispatch.RecordEffectWindow | src/fi-parser.c:54-89 | A combined record reads at most 4 tokens and changes only the slots of its own source. |
| Dispatch.LocationBlock | src/fi-parser.c:119-125 | A PointSource-Location block writes at most 2·(32 - loc) coordinates, from ps_loc[2·loc] and nothing else. loc advances by `1 + (count - 1)/2` in C arithmetic: by 1 for an empty block, and never past 32 when data was read from loc ≤ 32. |
| Dispatch.FrequencyBlock | src/fi-parser.c:126-130 | A PointSource-Frequency block writes at most 32 - freq values, from ps_freq[freq] and nothing else. It advances only freq, by exactly the count, so freq ≤ 32 is kept. |
| Dispatch.PhaseBlock | src/fi-parser.c:131-135 | The same for PointSource-Phase, ps_phase and phase. |
| Dispatch.FixedBlock | src/fi-parser.c:102-148 | The fixed-destination blocks move no counter and write only their own field. Material-C, PointSource-Number, Field-Max and Field-Min read at most one value; Field-Offset, -Dimensions and -Size read at most NUM_DIMS. Field-Max and Field-Min set written to 2 whether or not their value converts. |
| Dispatch.BlockCountersGrow | src/fi-parser.c:106-135 | No block decreases any of the three counters. |
| Dispatch.NamedCountersGrow | src/fi-parser.c:102-152 | No recognised block decreases any of the three counters. |
| Dispatch.RunBlocksCountersGrow | src/fi-parser.c:11-13 | The counters are never reset. Across any run of blocks, and so across successive parses with the same Parser, each counter only grows. |
| FieldInfo.Snapshot | src/fim.h:6-30 | The values held by both descriptors, each field with its fixed length. |
| FieldInfo.FieldInfoMap.constructor | src/fim.h:6-22 | A scene descriptor with fields of lengths 1, 1, 64, 32, 32, 2, 2 and 2, zero-filled and pairwise separate. |
| FieldInfo.FieldDataMap.constructor | src/fim.h:24-30 | A result descriptor with three one-element fields, zero-filled. |
| FiParser.Starts | src/fi-parser.c:178 | One recorded start per block, in order. |
| FiParser.Parser.constructor | src/fi-parser.c:11-13 | The three counters start at 0. |
| FiParser.Parser.Route | src/fi-parser.c:102-152 | The branch for a recognised name leaves the buffer, descriptors, counters and hazard log as `NamedEffect` says. It returns its count. |
| FiParser.Parser.ReadMaterialC | src/fi-parser.c:102-103 | Material-C: one float into mat_c, as `MaterialCEffect` says. |
| FiParser.Parser.ReadSourceNumber | src/fi-parser.c:104-105 | PointSource-Number: one integer into psn. |
| FiParser.Parser.ReadCombinedRecord | src/fi-parser.c:106-118 | PointSource: the record at max(loc, freq, phase). Then all three counters move to that index plus one if anything was read. An overrun of tokens[4] and an index past capacity are logged. |
| FiParser.Parser.ReadLocations | src/fi-parser.c:119-125 | PointSource-Location: at most 2·(32 - loc) coordinates from ps_loc[2·loc]. loc advances by `LocationAdvance(count)`. A block that reads nothing is logged, whether it is empty or loc is already at or past 32. |
| FiParser.Parser.ReadFrequencies | src/fi-parser.c:126-130 | PointSource-Frequency: at most 32 - freq values from ps_freq[freq]. freq advances by the count. |
| FiParser.Parser.ReadPhases | src/fi-parser.c:131-135 | PointSource-Phase: at most 32 - phase values from ps_phase[phase]. phase advances by the count. |
| FiParser.Parser.ReadOffset | src/fi-parser.c:136-137 | Field-Offset: at most NUM_DIMS floats into fieldoffset. |
| FiParser.Parser.ReadDimensions | src/fi-parser.c:138-139 | Field-Dimensions: at most NUM_DIMS floats into fielddims. |
| FiParser.Parser.ReadSize | src/fi-parser.c:140-142 | Field-Size: at most NUM_DIMS unsigned integers into fieldsize. |
| FiParser.Parser.ReadMax | src/fi-parser.c:143-145 | Field-Max: written set to 2, then one float into field_max. |
| FiParser.Parser.ReadMin | src/fi-parser.c:146-148 | Field-Min: written set to 2, then one float into field_min. |
| FiParser.Parser.ParseBlock | src/fi-parser.c:91-157 | parseBlock leaves the buffer, both descriptors, the counters and the hazard log exactly as `BlockEffect` says, and returns its count. |
| FiParser.Parser.ParseNamed | src/fi-parser.c:95-156 | Once strtok has cut out the name, the rest of parseBlock does what `NamedBlockEffect` says. |
| FiParser.Parser.ParseRecognised | src/fi-parser.c:95-148 | For a recognised name, the branch leaves everything as `NamedEffect` says, and DataPastNul is logged before its hazards when the name's end was already NUL. |
| FiParser.Parser.ParseBlocks | src/fi-parser.c:198-202 | The second loop leaves everything as `RunBlocks` over the recorded starts says. |
| FiParser.Parser.ParseNext | src/fi-parser.c:199-201 | One pass of the second loop: after blocks 0..i-1 the state is `RunBlocks` over their starts, and after block i it is `RunBlocks` over one more. |
| FiParser.Parser.ParseFieldInfo | src/fi-parser.c:159-205 | parseFieldInfo returns 1 on a bracket error. It then parses no block: descriptors, counters and log are unchanged, and only the brackets closed before the error are NUL. Otherwise it returns 0, having closed the blocks found and parsed them in order, as `RunBlocks` says. |

## Left out

- Logging is not modelled: `recordToken` (src/fi-parser.c:15-27), every `record` call and src/common.c. The error's line and column are therefore not returned. `BracketScanner.Scan` computes them, and `FiParser.FindBlocks` tracks them as the C loop does.
- sscanf's `%f`, `%d` and `%u` are uninterpreted conversion functions (`Dispatch.Scanners`) from a token's text to an optional value. Floating-point representation and the exact text grammar are not modelled. GLfloat is `real`, GLint is `int` and GLuint is `nat`.
- Integer widths: the counters and indices are unbounded naturals. Overflow after 2³¹ increments of a counter is not modelled.
- src/main.c (OpenGL setup, descriptor layout discovery and the render loop) is not part of this model, and neither is file reading. `bufsize` is the buffer array's length.
- FiParser.Parser.ParseFieldInfo requires the buffer's last byte to be NUL. The program zero-fills a 2048-byte buffer and reads at most 2048 bytes into it (src/main.c:333-337). A file of exactly 2048 bytes would leave no NUL, and strtok could then run past the buffer. The model excludes that input instead of describing it.
- FiParser.Parser.ReadCombinedRecord: when the index is at or past 32, C writes outside ps_loc, ps_freq and ps_phase. The model performs only the in-range writes and logs IndexPastCapacity. Memory outside the descriptors is not modelled.
- FiParser.Parser.ParseBlock: for a block with no name, C calls `strlen(NULL)`. The model returns None, changes nothing and logs MissingName.
- Decoder.CollectRecord: the store into `tokens[4]` is not performed, because the array has only four slots. The strtok call that produces it is performed, and ReadCombinedRecord logs TokenSlotOverrun.
- Decoder.Sscanf: a destination past the end of the target is left alone. parseData's callers never reach one, because the window fits, but a combined record past capacity does. Each conversion is otherwise abstract: it is only required to match nothing in text that is white space throughout, which is when sscanf returns EOF. recordToken receives that -1 as a true `valid` and logs a success for a value never written; the log is not part of this model.
- The `block_start` pointers of both descriptors (src/fim.h:21 and src/fim.h:29) are GPU layout bookkeeping, and the parser never uses them.
