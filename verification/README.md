# SoC generator and companion tools: a verified model

This project models the parts of a system-on-chip generator that compute something hard, and the small tools beside
it, and proves what they promise. Each module names its source file in its first line.

- **Address decoder** (`AddrValidate`, `ClassRegs`, `Decoder`, `PrefixTries`, `DecodeAddress`): device base addresses
  become bit-string prefixes, a radix trie and a VHDL function of nested tests. An interpreter for that function is
  compared with the address ranges that the validation accepts.
- **VHDL front end** (`Vhdl*`): lexer, parser and printer for expressions (section 7.1 of IEEE Std 1076-1993) and
  sequential statements (sections 8.1 to 8.13). `VhdlGrammar` has the parser as functions on the tokens still to be
  read; the class `Parser` is the cursor with its loops, proved against them. `VhdlPrecedence` says once more, operator
  by operator, what binds tighter. Printed text is a list of pieces, so that lexing it can be related to the tokens meant.
- **Interrupt wiring** (`Irq`, `IrqTheorems`): the result is read as wires, with a level for each port.
- **YAML includes** (`MergeSpec`, `MergeTheorems`, `YamlNodes`): the merge on heap nodes, in place, refines a rule for
  every depth.
- **C register structs** (`RegStruct`): where the fields lie in C and in the hardware.
- **Net-list passes** (`Netlists`, `Pins`, `Elaborate`, `Categorize`).
- **CoreMark record** (`UartReport`, `Collector`): from the board's bytes to the host's verdict.
- **TAP accounting** (`Tap`, `TapRun`): counters and table of one test program, and the totals of a batch.

Loops over a mutable state are methods, proved against functions on values; the lemmas are about those functions.
Go's division truncates (`ClassRegs.GoDiv`), address spans saturate at 64 bits, and the CRC is cut to 16 bits, as in
the source. A theorem that holds only under a condition states both directions where the table says "if and only if".

Where a stated promise is not met by the code, the code is modelled as it is. A lemma gives the failing input, and
another the exact condition: the section on findings lists them, and their rows in the table begin with "Finding:". The comment on `resolveTree` says that
no `!include`, `<<` or `!remove` node remains; the code removes only scalars tagged `!remove` that are values of a
mapping, and the model follows the code.

## Model

| member | source | states |
|---|---|---|
| AddrValidate.ValidateAddresses | tools/socgen/elaborate/addr_validate.go:18-60 | The errors are exactly: for each resolved memory-mapped device, one for a base whose bits 31 to 28 are not 0xA, one for a left address bit outside 0 to 62, and one for base bits inside its own space; and the overlapping pairs of device and reserved ranges. There is none exactly when all of it holds. |
| AddrValidate.CheckAddrOverlap | tools/socgen/elaborate/addr_validate.go:88-115 | Every overlapping pair of device and reserved ranges is reported, the one that sorts first as the first, nothing else is reported, and nothing at all exactly when the ranges are disjoint. |
| AddrValidate.ReportOverlaps | tools/socgen/elaborate/addr_validate.go:105-113 | The nested loops report exactly the overlapping pairs, each in list order. |
| DecodeAddress.ValidatedBus | tools/socgen/elaborate/addr_validate.go:18-115 | A design without address errors, with bases below 4 GiB, resolved classes and distinct names, gives ranges that are aligned, disjoint and in the device region, whatever order its devices come in. |
| Decoder.SimplePrefixesSeparate | tools/socgen/emit/databus.go:159-209 | Each trimmed prefix begins its device's exact prefix, and begins no other device's exact or trimmed prefix. |
| Decoder.SimplePrefixesMinimal | tools/socgen/emit/databus.go:159-209 | With two or more devices, a trimmed prefix without its last bit begins some other device's exact prefix. |
| Decoder.SimplePrefixSingle | tools/socgen/emit/databus.go:159-209 | A single device keeps no bit: the trimmed prefix is empty. |
| Decoder.DecodeBodyIsLookup | tools/socgen/emit/databus.go:106-159 | For any bit-string prefixes in the device region, run on a 32-bit address with top digit a, the compiled if/elsif/else/return tree returns the literal of the first leaf on the address's path in the trie, and that of none when there is no leaf. |
| Decoder.DecodeBodyCorrect | tools/socgen/emit/databus.go:125-254 | For prefixes of which none begins another, the compiled body returns the literal of the one device whose prefix begins the address, and that of none when there is none. |
| DecodeAddress.ExactDecode | tools/socgen/emit/databus.go:125-254 | Exact mode: every bus address decodes to the device whose range holds it, and to none outside all ranges. |
| DecodeAddress.ValidatedExactDecode | tools/socgen/elaborate/addr_validate.go:18-115 | End to end: when validation reports nothing, decoding an address returns a data-bus device's literal when the address is in that device's span, and that of none when it is in no span. |
| DecodeAddress.SimpleRefinesExact | tools/socgen/emit/databus.go:163-254 | Simple mode answers like exact mode inside all ranges; elsewhere it answers with the one device whose trimmed prefix begins the address, or with none when there is no such device. |
| DecodeAddress.EmittedDecodeExact | tools/socgen/emit/databus.go:258-287 | With the emitted literals, each device answers exactly inside its range and NONE exactly outside all ranges, if and only if no two names are equal in upper case and no device is named none. |
| DecodeAddress.EmittedSimpleExact | tools/socgen/emit/databus.go:163-287 | Simple mode with the emitted literals: on the mapped addresses each device answers exactly inside its range if and only if no two names are equal in upper case. |
| DecodeAddress.EmittedPrefixExact | tools/socgen/emit/databus.go:163-287 | And on all bus addresses: each device answers exactly for its trimmed prefix, and NONE exactly for no trimmed prefix, if and only if no two names are equal in upper case and, unless every address has a trimmed prefix, no device is named none. |
| DecodeAddress.BusDevicesOf | tools/socgen/emit/databus.go:262-276 | The data-bus devices with a base address, each as often as it is resolved, in the order of their names. |
| DecodeAddress.HighBases | tools/socgen/elaborate/addr_validate.go:18-115 | For a whole bus that validates with 64-bit bases: every address decodes right if and only if each device at 4 GiB or above is shadowed by one below it (shorter prefix, or the same prefix and a later place). |
| DecodeAddress.ValidatedWide | tools/socgen/elaborate/addr_validate.go:73-83 | Validation gives such a bus: checked regions, alignment, distinct names and ranges that stay apart although the spans saturate at the top of the 64-bit space. |
| DecodeAddress.HighBase | tools/socgen/elaborate/addr_validate.go:33-36 | The single-device case: decoding is right for every address exactly when the base is below 2^32. |
| PrefixTries.PrefixTrie.Insert | tools/socgen/emit/databus.go:50-68 | The mutable trie after an insertion stands for the value trie with that insertion, at every depth. |
| PrefixTries.TrimSuffix | tools/socgen/emit/databus.go:159-181 | The in-place map holds the trimmed prefix of each leaf's device. |
| PrefixTries.DevicePrefixes | tools/socgen/emit/databus.go:194-209 | The loop gives each device its exact prefix, or its trimmed one in simple mode. |
| PrefixTries.DecodeFunction | tools/socgen/emit/databus.go:214-254 | The function body that the code builds from mutable nodes is the one whose meaning is proved above. |
| ClassRegs.ResolveRegs | tools/socgen/elaborate/class.go:100-170 | Registers are placed as PlacedExactly says; the errors are exactly the overlapping pairs and an override that is too small; and the window and word-aligned range are those the lemmas below speak of. |
| ClassRegs.PlacedExactly | tools/socgen/elaborate/class.go:100-126 | A register keeps its name, has its given address or the end of the register before it (0 for the first), and its given width or four bytes. |
| ClassRegs.OverlapsIsShared | tools/socgen/elaborate/class.go:172-172 | Registers of one byte or more overlap exactly when they share a byte. |
| ClassRegs.WindowHoldsRegisters | tools/socgen/elaborate/class.go:134-168 | The window of 2^(left bit + 1) bytes holds all registers if and only if none has a negative address. |
| ClassRegs.WindowIsLeast | tools/socgen/elaborate/class.go:134-168 | Without an override, no smaller power of two would hold all registers. |
| ClassRegs.RangeCovers | tools/socgen/elaborate/class.go:134-168 | The reported word-aligned byte range covers all registers if and only if the lowest address is not negative or is a multiple of four. |
| DecodeAddress.RegisterBytesDecode | tools/socgen/elaborate/class.go:100-170 | Every byte of every register of a device of a validated bus, at base plus offset, decodes to that device in both modes. |
| VhdlParser.Parser.ParseExpr | tools/socgen/vhdl/parser.go:136-156 | The cursor parser ends on every token list, and leaves the tree, the position and the error count that the grammar function gives. |
| VhdlParser.Parser.ParseTier | tools/socgen/vhdl/parser.go:157-248 | Each binary tier's loop over the cursor computes the left fold of the grammar, for all five tiers. |
| VhdlPrecedence.ParsedTight | tools/socgen/vhdl/parser.go:136-309 | In every tree that is read without an error, everywhere: a left operand binds as tight as its operator or tighter and a right one tighter, the levels being written out operator by operator; ** takes primaries, a sign a term, abs and not a primary, and a range no ranges. |
| VhdlPrecedence.TwoOperators | tools/socgen/vhdl/parser.go:157-248 | For all primaries a, b, c and any two binary operators of the five tiers, a op b oq c is read as (a op b) oq c if and only if the first operator is of the same or a tighter level, and as a op (b oq c) otherwise. |
| VhdlPrecedence.SignedOperator | tools/socgen/vhdl/parser.go:208-243 | A sign in front takes a product behind it, and no looser operator. |
| VhdlParser.Parser.ParsePrimary | tools/socgen/vhdl/parser.go:265-309 | Primaries, by the same statement, with the error case that reads no token. |
| VhdlParser.Parser.ParseName | tools/socgen/vhdl/parser.go:1871-1960 | Names, attributes, qualified expressions and suffix chains, by the same statement. |
| VhdlParser.Parser.ParseSequentialStmt | tools/socgen/vhdl/parser.go:1022-1091 | Statements of any nesting: the method ends on every token list and computes the grammar's result. |
| VhdlParser.Parser.ParseSeqStmtsUntil | tools/socgen/vhdl/parser.go:1192-1215 | Statement lists stop at the keywords of their stop set or at the end, and a statement that reads nothing costs one token and one error, so the loop ends. |
| VhdlParser.Lexer.Next | tools/socgen/vhdl/lexer.go:84-330 | Next skips white space and returns the token that stands there; a token other than the end takes at least one byte. |
| VhdlPrecedence.AtomsAreRead | tools/socgen/vhdl/parser.go:265-309 | By token kinds: the six kinds of literals, a number with a unit, the words others, all, range, null and open, and names with a further segment or an attribute are expressions by themselves. |
| VhdlTokens.NumberIsRead | tools/socgen/vhdl/lexer.go:186-243 | From its characters: a token that starts with a digit is a based literal behind #, a real one with a point and a digit or with an exponent, and else an integer, and reaches as far as its runs of digits do. |
| VhdlTokens.StringIsRead | tools/socgen/vhdl/lexer.go:128-147 | A text in quotes, its own quotes doubled, is one string literal, whatever stands before and behind. |
| VhdlTokens.ExtendedIsRead | tools/socgen/vhdl/lexer.go:107-126 | The same for extended identifiers. |
| VhdlTokens.BitStringIsRead | tools/socgen/vhdl/lexer.go:149-180 | The same behind a base letter for bit strings. |
| VhdlTokens.TickIsRead | tools/socgen/vhdl/lexer.go:276-296 | A tick opens a character literal exactly when a second tick follows the next character and the token before cannot end a name. |
| VhdlTokens.SignIsRead | tools/socgen/vhdl/lexer.go:246-330 | A sign stands alone when it and the next character are no sign of two characters. |
| VhdlTokens.SpaceIsSkipped | tools/socgen/vhdl/lexer.go:84-93 | Blanks, tabs and line ends are skipped, and comments, and nothing else. |
| VhdlSource.WordIsRead | tools/socgen/vhdl/lexer.go:84-330 | A word is one token with its own text; its kind is that of a reserved word exactly when it has that word's letters, in either case, and what is no reserved word is an identifier. |
| VhdlParser.Tokenize | tools/socgen/vhdl/parser.go:19-43 | The token list is the source's tokens without comments and then the end, and the iteration cap is never reached. |
| VhdlParser.NewParser | tools/socgen/vhdl/parser.go:17-43 | A new parser stands in front of the text's tokens, with no error. |
| VhdlParser.ParseExprText | tools/socgen/vhdl/parser.go:47-156 | On a source text, the cursor parser returns the tree and the error count of the grammar on the text's tokens, which the round trips speak of. |
| VhdlParser.ParseStmtText | tools/socgen/vhdl/parser.go:1022-1091 | The same for a sequential statement. |
| VhdlExprTheorems.ExprSound | tools/socgen/vhdl/parser.go:136-341 | Every tree that is parsed without an error is one of the stratified grammar, and the tokens left are as the lexer makes them. |
| VhdlExprTheorems.PrintThenParse | tools/socgen/vhdl/printer.go:997-1078 | Printing an error-free tree and parsing its tokens in front of any rest that cannot continue an expression gives the merged tree and that rest. |
| VhdlExprTheorems.RoundTripExact | tools/socgen/vhdl/printer.go:997-1078 | The same tree comes back if and only if it has no selector on a plain dotted name. |
| VhdlExprTheorems.RoundTrip | tools/socgen/vhdl/printer.go:997-1078 | When no two dots stand in a row in the source, every error-free expression comes back, although the printer inserts no parentheses. |
| VhdlSource.ExprTextLexes | tools/socgen/vhdl/lexer.go:71-82 | The printed text of a tree of the grammar lexes to the tree's tokens if and only if every token keeps its meaning in front of what follows. |
| VhdlText.LexText | tools/socgen/vhdl/lexer.go:84-330 | Any printed text whose pieces are set apart lexes to its tokens if and only if quoted tokens are closed, ticks are not followed by a character and a quote unless a name stands before, and character literals are one byte long. |
| VhdlSource.SourceLexes | tools/socgen/vhdl/lexer.go:283-296 | From source text: the printed text of a parsed expression lexes to the tree's tokens under exactly that condition, so no two pieces merge and two signs never make a comment. |
| VhdlSource.SourceComesBack | tools/socgen/vhdl/printer.go:997-1078 | From source text to printed text and back: the same tree, with no error and nothing left over, if and only if every printed token keeps its meaning and no selector stands on a plain dotted name. |
| VhdlSource.ExprThin | tools/socgen/vhdl/parser.go:136-341 | The tokens an expression was read from are its printed tokens, but for commas and dots that the parser drops. |
| VhdlStmtTheorems.StmtPrintThenParse | tools/socgen/vhdl/printer.go:301-535 | Printing an error-free printable statement, at any indentation and in front of any text, and parsing it gives the merged statement. |
| VhdlStmtTheorems.StmtRoundTripExact | tools/socgen/vhdl/printer.go:301-535 | An error-free statement comes back from its printed tokens if and only if it is one of the strict statement grammar. |
| VhdlStmtTheorems.StmtRoundTrip | tools/socgen/vhdl/printer.go:301-535 | When no two dots stand in a row, an error-free statement comes back if and only if every name starts with a token that has a spelling and no call without arguments is made on more than a plain name. |
| VhdlStmtTheorems.SeqRoundTrip | tools/socgen/vhdl/parser.go:1192-1215 | A statement list in front of a keyword of its stop set comes back, and the keyword stays. |
| VhdlStmtTheorems.EmptyElse | tools/socgen/vhdl/printer.go:1133-1138 | An empty else part is read as no else part. |
| VhdlStmtSource.StmtApart | tools/socgen/vhdl/printer.go:301-535 | The printed pieces of every statement of the grammar are set apart where they have to be. |
| VhdlStmtSource.StmtSourceLexes | tools/socgen/vhdl/lexer.go:84-330 | From source text: the printed text of a parsed statement lexes to the statement's tokens if and only if every token keeps its meaning. |
| VhdlStmtSource.StmtSourceComesBack | tools/socgen/vhdl/printer.go:301-535 | From source text to printed text and back: a printable statement is the same again, with no error and nothing left over, if and only if every printed token keeps its meaning and the statement is one of the strict grammar. |
| VhdlStmtSource.StmtThin | tools/socgen/vhdl/parser.go:1022-1091 | The tokens a statement was read from are its printed tokens, but for those the parser drops: trailing commas, lone dots, an empty else, empty parentheses and closing labels. |
| Irq.BuildIrq | tools/socgen/elaborate/irq.go:81-252 | The loops and maps build the model that the wiring theorems speak of, with the errors in their order, and no model without an interrupt controller. |
| IrqTheorems.BitsAreOrs | tools/socgen/elaborate/irq.go:194-249 | In an error-free result, read as wires: every bit of every controller equals the or of exactly the ports that ask for it, for all port levels, if and only if no port that asks is the input its controller is wired with automatically. Devices, their cpu numbers (0 when none is given) and controllers are those of the design. |
| IrqTheorems.OneDriverEach | tools/socgen/elaborate/irq.go:216-238 | A bit has one driver, a port or an or-assignment, when a port asks for it, and none otherwise. |
| IrqTheorems.VectorTable | tools/socgen/elaborate/irq.go:210-215 | The vector table of the last controller of a cpu holds 0x11 plus the path for the lines asked for, and 0 elsewhere. |
| IrqTheorems.ErrorsExactly | tools/socgen/elaborate/irq.go:81-209 | No error is reported if and only if the controllers' cpus are numbered from 0 without a gap, each device has the ports it asks with, and each line is one of the eight of a cpu. |
| IrqTheorems.NeverMismatch | tools/socgen/elaborate/irq.go:223-230 | Two tuples of one group always have the same vector, so the mismatch error cannot be reported. |
| IrqTheorems.SignalNamesDiffer | tools/socgen/elaborate/irq.go:216-247 | For a whole result: the signals it declares have different names if and only if no line of a controller has more than 55200 ports. |
| IrqTheorems.NamesDifferExactly | tools/socgen/elaborate/irq.go:231-233 | The first n sources of a bit have different names if and only if n is at most 55200. |
| IrqTheorems.TextInjective | tools/socgen/elaborate/irq.go:216-247 | Different wires of any kind have different names, as long as no source stands behind the 55200th of its bit. |
| YamlNodes.ResolveTree | tools/socgen/design/include.go:17-24 | On heap nodes, in place: resolveTree leaves the tree, or reports the error, that the functional resolution gives. |
| YamlNodes.DeepMergeInto | tools/socgen/design/include.go:137-157 | On heap nodes, in place: the destination becomes the entry-by-entry merge. |
| MergeSpec.MergeMeans | tools/socgen/design/include.go:132-157 | At every depth: two mappings merge key by key (a base key the destination lacks comes in, a tombstone deletes the key it meets, other values merge, the rest stays), with the destination's keys first; two lists join with the destination's items first; any other destination stays as it is. |
| MergeSpec.MergesOnce | tools/socgen/design/include.go:132-157 | Nothing but the merge has this meaning. |
| MergeSpec.MergeKeyMeans | tools/socgen/design/include.go:104-130 | A mapping with one << key becomes its other entries, in their order, merged over the value of <<, which has to be a mapping. |
| MergeSpec.TwoMergeKeys | tools/socgen/design/include.go:104-130 | A mapping with two << keys is an error. |
| MergeSpec.StripMeans | tools/socgen/design/include.go:48-72 | Stripping takes out exactly the entries whose value is a scalar tagged !remove, and strips the other values. |
| MergeSpec.MergeLookup | tools/socgen/design/include.go:137-157 | At a key of two mappings with distinct keys, the merge gives the outcome for that key alone, and keys stay distinct. |
| MergeSpec.MergeKeys | tools/socgen/design/include.go:137-157 | The keys after a merge: the destination's that are not deleted, in their order, then the base's own in theirs. |
| MergeTheorems.ResolveLeavesNone | tools/socgen/design/include.go:13-70 | After resolution there is no scalar tagged !include, no << key, and no mapping value that is a scalar tagged !remove. |
| MergeTheorems.ResolveTwice | tools/socgen/design/include.go:13-70 | Resolving a resolved tree again, from anywhere, changes nothing. |
| MergeTheorems.ResolvedUnmarkedExactly | tools/socgen/design/include.go:13-70 | No node of any kind tagged !include or !remove is left if and only if, following includes, lists and mappings have neither tag, a scalar tagged !remove stands only as a mapping's value, and what the mapping under a << key adds to its siblings has none either; the rest of that mapping is lost with its tags. |
| MergeTheorems.MergeNodeExact | tools/socgen/design/include.go:137-157 | A merge has a forbidden tag if and only if the destination has one or the base adds one: through list items, values under new keys, and so on below, and not through values that the destination overrides or deletes. |
| MergeTheorems.EachEntryAdds | tools/socgen/design/include.go:137-157 | With distinct keys, what the base's entries add is decided entry by entry on the destination alone, whatever their order. |
| MergeTheorems.ResolvedIsUnmarked | tools/socgen/design/include.go:13-70 | A condition on the tags of the input alone: none is left when, following includes, lists and mappings have neither tag and a scalar tagged !remove stands only as a mapping's value; and for trees without << keys, only then. |
| RegStruct.ClassRegStruct | tools/socgen/cheader/regstruct.go:25-96 | The in-place expansion, gap filling and sort give the sorted fields, or nothing exactly when there is no register or a field is not made of whole words. |
| RegStruct.LayoutExact | tools/socgen/cheader/regstruct.go:25-96 | Whenever a struct is produced, for any registers: every field's C offset and end are its hardware bytes if and only if the registers are in ascending order, start at 0 or later and each ends in no lower word than it starts in. |
| RegStruct.OneFieldEach | tools/socgen/cheader/regstruct.go:25-96 | A struct has one field for each register, with its name, grown by less than a word on either side, and otherwise only nameless fields. |
| RegStruct.AscendingInPlace | tools/socgen/cheader/regstruct.go:29-96 | For ascending such registers the fields tile from byte 0 without gap or overlap, each at its offset. |
| RegStruct.ExpandHolds | tools/socgen/cheader/regstruct.go:29-60 | A field of whole words holds all bytes of its register. |
| RegStruct.NeighboursApart | tools/socgen/cheader/regstruct.go:29-60 | Two neighbours stay apart when both expand. |
| Netlists.Netlist.GatherSignals | tools/socgen/elaborate/netlist.go:114-128 | A signal has exactly the ports that name it, in the order of the owners and their ports. |
| Netlists.GatheredExactly | tools/socgen/elaborate/netlist.go:114-172 | A signal has a port exactly for each signal port of an owner that names it, with the owner, the name and the direction of that port. |
| Netlists.Netlist.InjectInternalBusPorts | tools/socgen/elaborate/categorize.go:187-227 | Each peripheral bus adds its two ports, and pi gets a driver exactly when a device reads it and nothing drives it. |
| Netlists.InjectedExactly | tools/socgen/elaborate/categorize.go:187-227 | On ports alone: what a signal has afterwards is what it had, a driver or a reader among the devices for each bus that it belongs to, and for pi a driver in the pad ring exactly when a device port reads it and no port drives it. |
| Netlists.Netlist.RemoveWriteOnlySignals | tools/socgen/elaborate/prune.go:46-92 | The signals that survive are the kept ones, exactly the ports that named a removed signal are cleared, and no port is left dangling. |
| Elaborate.RunPasses | tools/socgen/elaborate/netlist.go:72-97 | After gather, pins, zero signals, bus ports and prune no port names a missing signal, each pin comes out as over the net-list before all pins, each signal is exactly what the passes add up to when it is kept, and pruning again changes nothing. |
| Pins.ResolvePins | tools/socgen/elaborate/pins.go:218-317 | The loop that changes the net-list it reads equals a map over the pins on the net-list before it. |
| Pins.BufferExactly | tools/socgen/elaborate/pins.go:218-383 | From the legs and the net-list's ports: a pin without a constant and an entity pad is dropped exactly when it has no leg or one to a signal that only pins have. A buffered one with a bare signal has an input buffer and pad if and only if no other port drives the signal, and else an output one, differential when there is a second side; explicit legs give IOBUF, OBUFT, OBUF or IBUF by which are set. |
| Pins.LegsExactly | tools/socgen/elaborate/pins.go:218-345 | Which signals a pin drives and reads: an in leg drives, out and out-en legs read, and a bare signal is driven exactly when no other port drives it. |
| Pins.UnjoinedPins | tools/socgen/elaborate/pins.go:218-252 | A constant 0 or 1 drives its pad with that bit, another constant drops the pin, and an entity pad binds its signal; none joins the net-list. |
| Pins.LastRuleWins | tools/socgen/elaborate/pins.go:124-165 | The last matching rule that sets in, out-en, buff, entity-pad or an attribute decides it. |
| Pins.UnsetLegs | tools/socgen/elaborate/pins.go:124-165 | A leg that no matching rule sets is not there. |
| Pins.SignalExactly | tools/socgen/elaborate/pins.go:80-104 | A signal names itself, or the pin's net, or what its template gives; only a map has a second side, and a constant has no name. |
| Pins.PartsInOrder | tools/socgen/elaborate/pins.go:80-104 | A template is its parts one behind the other. |
| Pins.OutcomeStable | tools/socgen/elaborate/pins.go:182-210 | A pin's direction, buffer and drop decision depend on ports that are not pins' alone. |
| Pins.LastOutWins | tools/socgen/elaborate/pins.go:124-165 | The last matching rule that sets the output leg decides it, its inversion and its constant. |
| Pins.LastSignalWins | tools/socgen/elaborate/pins.go:124-165 | The last matching rule that sets the signal decides it. |
| Categorize.TypeCombinations | tools/socgen/elaborate/categorize.go:40-70 | Exactly the sets that one pick for each position reaches, each once, for any positions. |
| Categorize.CategorizeSignals | tools/socgen/elaborate/categorize.go:84-182 | Padring holds the signals with a port of a pin, the pad ring or expose and no zero driver, top those with a top port and otherwise device ports, devices those of devices alone. A signal has one boundary port exactly when it has ports inside and outside and its drivers are there and of one context, a pin counting as the pad ring; it is an output exactly when all drivers lie inside. A boundary signal without a driver or with drivers of two contexts is an error. |
| Categorize.Partition | tools/socgen/elaborate/categorize.go:136-170 | A signal's contexts fit exactly one of the three categories when it has a port and no zero driver, and none otherwise. |
| UartReport.Uart.PutDec32 | targets/boards/icesugar/rom/uart_io.c:99-121 | The digits written are the shortest decimal notation of the number, with at most nine subtractions a digit. |
| UartReport.Uart.PutHex32 | targets/boards/icesugar/rom/uart_io.c:82-90 | Eight hexadecimal digits behind 0x. |
| UartReport.Uart.Report | targets/boards/icesugar/rom/coremark/uart_report.c:24-40 | The bytes written are the six fields of the record, each on its line, and the closing line. |
| Collector.ParseRecord | tools/coremark-collector/result.go:66-141 | Each key's last value counts; the first key that is missing or does not parse is the error, in the order of the record, and then zero cycles. |
| Collector.ParsedExactly | tools/coremark-collector/result.go:66-141 | The first key, in the order of the record, that is missing or does not parse is the error, then no cycles; otherwise each value is in its field. |
| Collector.DecimalExactly | tools/coremark-collector/result.go:131-141 | A decimal field is a number exactly when it is decimal digits of a number below 2^32. |
| Collector.AnyBaseExactly | tools/coremark-collector/result.go:119-129 | A field of any base is a number exactly when, behind 0b, 0o, 0x (in either case) or another 0, or without prefix, it is digits of that base of a number below 2^32, underscores standing apart. |
| Collector.BlanksAround | tools/coremark-collector/result.go:66-82 | White space around a line of the record does not matter. |
| Collector.RecordRoundTrip | tools/coremark-collector/result.go:66-141 | The written lines of any record with 32-bit fields and a 16-bit CRC parse to that record, and are refused exactly when the cycles are zero. |
| Collector.LineReader.Next | tools/coremark-collector/main.go:134-160 | A complete line is taken from the front of what is still to come; otherwise one read is made and nothing is lost. |
| Collector.Collect | tools/coremark-collector/main.go:43-91 | The outcome is that of the stream's lines, however the bytes are split into reads, and enough polls always reach it; the trigger is sent at most once. |
| Collector.RecordIsCollected | tools/coremark-collector/main.go:43-91 | An announcement and then a record's lines among any console noise give the record's verdict, unless an earlier line decided. |
| Collector.EmittedIsCollected | tools/coremark-collector/main.go:43-91 | What the board sends, behind any text and in front of any other, gives its record's verdict, unless the text before decided. |
| Collector.NoiseIgnored | tools/coremark-collector/main.go:43-91 | Lines without the CMK prefix and without the announcement change nothing. |
| TapRun.TestSet.ReadLine | tools/tests/runtests.c:546-671 | The fields and the growing table after a line are those of the state function. |
| Tap.ResultLines | tools/tests/runtests.c:590-660 | From the text of a line, ok or not ok with or without a number: it records at that number, or the next one, Skip when it says skip, Skip for not ok and Fail for ok when it says todo (in letters of either case), and otherwise Fail for not ok and Pass for ok. |
| Tap.RecordExactly | tools/tests/runtests.c:604-671 | A number that is in a first plan or a trailing plan's table and has no result yet gets the status, which is counted; any other number aborts the set and counts nothing. |
| Tap.PlanLines | tools/tests/runtests.c:463-530 | A plan 1..n before any result sets up n entries without a result, after some it can only extend them, a second plan aborts, and a plan of no tests aborts unless it says skip, which skips the set as a whole. |
| Tap.BailLines | tools/tests/runtests.c:555-572 | A line that says Bail out! aborts the set, with a report exactly when more than white space follows. |
| Tap.OtherLines | tools/tests/runtests.c:573-600 | Lines too long for their newline, comments, and lines that are neither plan nor result change nothing. |
| Tap.RecordedFailure | tools/tests/runtests.c:463-671 | After a not ok line that is recorded, without skip or todo, a set passes if and only if a later plan line says that all tests are skipped. |
| TapRun.TestSet.Run | tools/tests/runtests.c:868-940 | A whole run, to the conversion of missing results into failures, with the verdict. |
| TapRun.TestBatch | tools/tests/runtests.c:1132-1205 | The totals, the list of failed sets and the verdict of a batch: the verdict and an empty list agree under exactly the condition of BatchAgrees, and when every set keeps to its plan the total is passed plus failed. |
| Tap.RunAccounted | tools/tests/runtests.c:463-671 | Over any output, passed, failed and skipped are the numbers of table entries with that status, through all growth of the table. |
| Tap.Conserved | tools/tests/runtests.c:932-939 | At the end passed, failed and skipped add up to the count and the results beyond it. |
| Tap.RunConserved | tools/tests/runtests.c:463-671 | From the start of a run: they add up to the count, and the table is never left, if and only if every result stays within the trailing plan. |
| Tap.EndCounted | tools/tests/runtests.c:932-939 | At the end each counter still is the number of entries with its status, and every counted test has one. |
| Tap.PassesExactly | tools/tests/runtests.c:811-860 | Within its plan, a set passes if and only if nothing was reported and it was skipped as a whole, or it exited cleanly with a plan and each counted test passed or was skipped. |
| Tap.BatchConserved | tools/tests/runtests.c:1159-1165 | When every set keeps to its plan, the total without the skipped tests is passed plus failed. |
| Tap.VerdictsExactly | tools/tests/runtests.c:811-940 | For any output, the set passes, and its totals let the batch pass, under stated conditions on what was read and how the program ended; they sort all outputs into four kinds: both, neither, only the batch (a failing exit), only the set (a bare bail out). |
| Tap.SetAgrees | tools/tests/runtests.c:811-940 | The verdict on a set and what its totals say agree if and only if it was skipped as a whole, or something was reported, failed or is missing, or it was aborted and did not exit cleanly with a plan, or it was not aborted and exited cleanly. |
| Tap.BatchAgrees | tools/tests/runtests.c:1132-1205 | The verdict on a batch and an empty list of failed sets agree if and only if some set fails both ways, or there are sets of both other disagreeing kinds, or of neither. |
| Tap.BatchPasses | tools/tests/runtests.c:1182-1205 | A batch has neither an abort nor a failure exactly when no set has. |
| VhdlExprTheorems.DoubleDotFails | tools/socgen/vhdl/parser.go:1877-1890 | Finding: a..b is read without an error as a selector on a, printed a.b, and read again as one name. |
| VhdlStmtTheorems.BareCallFails | tools/socgen/vhdl/parser.go:859-872 | Finding: A call of a call without arguments, such as f(a)(), is printed as f(a) and read again as a call of f. |
| VhdlStmtTheorems.DelimiterTargetFails | tools/socgen/vhdl/parser.go:1871-1876 | Finding: An assignment to a delimiter, such as ( := x;, is read without an error and its target is not printed. |
| VhdlSource.KeywordAttributeSource | tools/socgen/vhdl/lexer.go:283-296 | Finding: A source text such as x'range ' a' b is read as one name, and its print x'range'a'b is not: 'a' is then a character literal. |
| VhdlSource.KeywordAttributeFails | tools/socgen/vhdl/lexer.go:283-296 | Finding: The same on tokens: the name is one of the grammar and its printed tokens do not keep their meaning. |
| VhdlSource.KeywordQualifiedFails | tools/socgen/vhdl/lexer.go:283-296 | Finding: The same for a qualified expression whose mark ends in a reserved word, such as t'range'('1'). |
| DecodeAddress.NoneNamed | tools/socgen/emit/databus.go:280-287 | Finding: A device named none answers for the unmapped addresses too. |
| DecodeAddress.SharedLiteral | tools/socgen/emit/databus.go:258-287 | Finding: Two names that differ only by case answer with one literal. |
| IrqTheorems.InputNeverArrives | tools/socgen/elaborate/irq.go:241-248 | Finding: A line declared at the input that its controller is wired with automatically is overwritten and never reaches its bit. |
| IrqTheorems.SuffixesRunOut | tools/socgen/elaborate/irq.go:231-233 | Finding: The 55200th and the 55201st source of a bit have one name: both suffixes become the replacement character. |
| MergeTheorems.TaggedTreesStay | tools/socgen/design/include.go:13-17 | Finding: A list tagged !remove, and a tombstone in a list, are still there after resolution. |
| MergeTheorems.OverriddenTagIsLost | tools/socgen/design/include.go:137-157 | Finding: With <<, a tagged list that another value overrides is gone: such a tree resolves to one without tags. |
| RegStruct.EmptyRegisterShifts | tools/socgen/cheader/regstruct.go:78-96 | Finding: A register without bytes at the start of a word takes four bytes in the struct and shifts all fields behind it. |
| RegStruct.NegativeRegisterShifts | tools/socgen/cheader/regstruct.go:60-96 | Finding: A register below address 0 is not where the struct starts. |
| Elaborate.InoutIsPruned | tools/socgen/elaborate/prune.go:46-92 | Finding: A signal survives the prune if and only if it is listed, bound, read by an input port or a bus, or reached by a pin; so one that only inout ports read is removed. |
| Elaborate.ElementPadIsNoShelter | tools/socgen/elaborate/pins.go:248-257 | Finding: An entity pad keeps its base signal from the prune if and only if it is bound to the whole signal and not to an element. |
| Collector.WideCrc | tools/coremark-collector/result.go:96-117 | Finding: A CRC field wider than 16 bits is taken for its low half: the record comes back if and only if its CRC fits. |
| Tap.InPlanExact | tools/tests/runtests.c:463-671 | Finding: Results are counted beyond the plan, or the table is left, if and only if some result line has a number above a trailing plan. |
| Tap.OnePast | tools/tests/runtests.c:610-671 | Finding: A result one past a trailing plan is counted, and the counters then add up to one more than the count. |
| Tap.TwoPassedOfOne | tools/tests/runtests.c:463-671 | Finding: The output ok 1, then the plan 1..1, then ok 2 passes two tests of one, and its set succeeds. |
| Tap.SkippedAfterFailure | tools/tests/runtests.c:463-500 | Finding: The output not ok 1, then 1..0 # skip, passes the set and its batch, however the program exits. |
| Tap.BareBailOut | tools/tests/runtests.c:555-572 | Finding: A bail out without a reason marks the set aborted and changes neither its verdict nor anything else at the end. |
| Tap.BareBailOutFailsBatch | tools/tests/runtests.c:1182-1205 | Finding: With the output 1..1, ok 1, Bail out! and a clean exit the set passes and its batch does not. |
| Tap.ExitNotCounted | tools/tests/runtests.c:811-860 | Finding: Two exits leave the same totals if and only if it is not the case that one is clean, the other is not, and results came without a plan and without an abort; and a set passes if and only if it would with a clean exit, and exits cleanly or is skipped as a whole. |
| Tap.FailingExitPassesBatch | tools/tests/runtests.c:811-860 | Finding: With the output 1..1, ok 1 and exit status 1 the set fails and its batch passes. |

## Findings

Promises that the code does not keep, each with the lemma that shows an input and the one that states the exact condition.

- Printing and parsing again returns the tree: not for a..b (VhdlExprTheorems.DoubleDotFails), nor when a printed tick and
  what follows it read as a character literal (VhdlSource.KeywordAttributeSource). Exact: VhdlSource.SourceComesBack.
- The same for statements: not for f(a)() and for delimiters as targets (VhdlStmtTheorems.BareCallFails,
  VhdlStmtTheorems.DelimiterTargetFails). Exact: VhdlStmtTheorems.StmtRoundTripExact on tokens and
  VhdlStmtSource.StmtSourceComesBack on text.
- A validated device decodes at its addresses: not at 4 GiB and above. Exact: DecodeAddress.HighBases. Nor with a name
  that is none or equal to another's in upper case (DecodeAddress.NoneNamed, DecodeAddress.SharedLiteral). Exact:
  DecodeAddress.EmittedDecodeExact; in simple mode DecodeAddress.EmittedSimpleExact and DecodeAddress.EmittedPrefixExact.
- Every declared interrupt reaches its bit: not from the input that its controller is wired with
  (IrqTheorems.InputNeverArrives). Exact: IrqTheorems.BitsAreOrs. Signals have different names: not
  the 55200th and 55201st source of a bit (IrqTheorems.SuffixesRunOut). Exact: IrqTheorems.NamesDifferExactly, IrqTheorems.SignalNamesDiffer.
- No tagged node remains after an include is resolved: MergeTheorems.TaggedTreesStay. Exact:
  MergeTheorems.ResolvedUnmarkedExactly.
- Struct fields lie where the registers are: not for unsorted registers, empty ones at a word's start
  (RegStruct.EmptyRegisterShifts) or negative addresses (RegStruct.NegativeRegisterShifts). Exact:
  RegStruct.LayoutExact.
- The register window covers the registers: not negative addresses. Exact: ClassRegs.WindowHoldsRegisters, ClassRegs.RangeCovers.
- Only unread signals are pruned: Elaborate.InoutIsPruned. An entity pad keeps its signal: Elaborate.ElementPadIsNoShelter. Both exact.
- A wrong CRC is rejected: not one that is wrong only above 16 bits. Exact: Collector.WideCrc.
- Results outside the plan abort the set: not after a trailing plan (Tap.OnePast, Tap.TwoPassedOfOne). Exact:
  Tap.InPlanExact.
- A set with a failed test fails: not when a plan that comes last skips all tests (Tap.SkippedAfterFailure). Exact: Tap.RecordedFailure.
- A batch passes when all its sets do: not with a bail out without a reason (Tap.BareBailOut,
  Tap.BareBailOutFailsBatch), and only then: not with a failing exit (Tap.ExitNotCounted,
  Tap.FailingExitPassesBatch). Exact: Tap.SetAgrees for a set and Tap.BatchAgrees for a batch.

## Left out

- Declarations, configurations, packages and concurrent statements of the VHDL front end: not modelled.
- The 49 reserved words that play no part in expressions and sequential statements are one kind; their tokens have the word.
- The lower-casing of class and register names, and the types of registers.
- Source positions, error texts, line tables, parser allocation by `new` expressions, and the C preprocessor option.
- VhdlStmtSource.StmtSourceComesBack: leaves out statements whose target or waited name starts with a delimiter, which do not come back from their tokens (VhdlStmtTheorems.StmtRoundTrip), or with a character above 127, which the lexer reads as two bytes.
- VhdlStmtSource.StmtSourceLexes: leaves out the same statements.
- MergeTheorems.ResolvedIsUnmarked: with `<<` keys this condition is sufficient and not necessary, because an overridden value takes its tags with it (MergeTheorems.OverriddenTagIsLost); MergeTheorems.ResolvedUnmarkedExactly is exact there too.
- YAML decoding, aliases, comments, key nodes other than plain strings, and `filepath.Abs`; a file is a tree found by its path.
- Regular expressions of pin rules: whether a rule matches a net, and what it captures, is given from outside.
- The floating-point logarithm of `resolveRegs`: the exact ceiling logarithm stands for it.
- Types and signal checks of the net-list (`validateSignals`), named interrupt ports of the net-list gathering, and the sorting of result lists by name in `categorize`, with its alias maps.
- Interrupt lines by name are an ordered list of entries with distinct names.
- `strings.ToUpper` is any function of names; the theorems hold for every one.
- Non-ASCII white space in the record lines, and the serial device, clock and exit codes of the collector; a deadline is a number of polls.
- Writing to the terminal, starting programs and memory exhaustion in the test runner; a table index beyond its end is a flag after which nothing is claimed.
- Bus multiplexers, output formats, tables of CPU variants, plugins and board support code: plumbing without anything unbounded to prove.
