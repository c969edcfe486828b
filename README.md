# UltimateTerminal in Dafny

UltimateTerminal is a Qt terminal for serial ports, TCP sockets and child
processes. It comes with user buttons that send scripted commands, trace
filters and per-port command history, plus a Python build step that
generates the settings header. This project models the sequential logic
under the GUI, the threads and the OS drivers, and proves what that logic
promises.

- **Settings header generator** (`settings_header_gen.dfy`). The script
  maps a loaded JSON object to header text: guard, banner, one
  `DEF_SETTING_GROUP` line per key typed by the value's exact JSON type,
  then `#endif`.
- **Binary codecs**:
  - the big-endian serializer (`serialize.dfy`);
  - the 4-byte payload-length header (`socket_header.dfy`);
  - the persistence file of `name\0 size data` blocks (`persistence_handler.dfy`);
  - the key/value persistence items (`persistence_items.dfy`);
  - the settings store's own image (`settings_store.dfy`);
  - the command-history image (`command_history.dfy`);
  - the test RPC's message structs, header and result wrapper
    (`test_framework_api.dfy`, `rpc_common.dfy`).

  Each comes with its round trip and its offset advance.
- **Framing and writing in the drivers**:
  - the newline framing of a fixed receive buffer (`framing.dfy`);
  - the write buffer of header mode and the send loop
    (`socket_write.dfy`);
  - their use by the socket client, the server's client handler and the
    serial driver, together with the serial enum name tables
    (`socket_client.dfy`, `client_handler.dfy`, `serial_driver.dfy`);
  - the backend dispatch of a port (`drivers_proxy.dfy`).
- **User-button command language**: splitting on `'\n'`, `__wait(N)` cut into
  500 ms steps, nested `__repeat_start(X)` / `__repeat_end()` expansion, and
  execution up to the first failure (`button_commands_parser.dfy`,
  `button_commands_executor.dfy`).
- **Stateful tables and state machines**:
  - the timer table (`timers.dfy`);
  - the listener lists (`listeners.dfy`);
  - both GUI controllers' registries, counters and lookups
    (`gui_controller.dfy`, `legacy_gui_controller.dfy`);
  - both stylesheet classes (`stylesheet.dfy`, `legacy_stylesheet.dfy`);
  - the port settings and their dialog lookups (`port_settings.dfy`,
    `port_setting_dialog.dfy`);
  - the DISCONNECTED / CONNECTING / CONNECTED machines of `Port` and
    `PortHandler` (`port.dfy`, `port_handler.dfy`);
  - trace filters, user buttons and button tabs (`trace_filter.dfy`,
    `user_button.dfy`, `user_buttons_tab.dfy`);
  - the main window's bookkeeping (`main_application.dfy`);
  - the RPC server and client tables (`rpc_server.dfy`, `rpc_client.dfy`);
  - the option parser of the serial data generator tool
    (`serial_data_generator.dfy`).

Code that changes state in place is modelled as Dafny classes whose methods
modify their fields. Each such method is tied to a specification function
whose properties are proved as lemmas. Pure lookups and encodings are
functions. Shared pieces live in `common.dfy` (fixed-width integers, the
byte view of strings) and `text.dfy` (decimal and hex formatting and
parsing, `getline` splitting, substring search).

Calls into Qt, the OS and the clock are not modelled as calls. Their results
become inputs of the methods that use them: send/recv/read results, connect
results, the time stamp, regular-expression matches and dialog outcomes.
What the code asks of the GUI is recorded as output state.

Where the code does not do what it evidently means to (see "## Findings"),
the operations follow the code as written, and the intended definition is
kept beside it with its property proved. The colours the GUI controller
reports for the window (`getBackgroundColor`, `getTextColor`) are read
again each time a button is painted, so they are inputs of every method
that paints one.

## Model

| member | source | states |
|---|---|---|
| `Serialize.Encode` | sw/Utilities/public/Serialize.hpp:8-60 | a string takes its 4-byte length plus one byte per char; an unsupported type appends nothing |
| `Serialize.Serialize` | sw/Utilities/public/Serialize.hpp:8-60 | the buffer becomes the old buffer followed by the item's encoding: serialize only appends |
| `Serialize.SerializeChars` | sw/Utilities/public/Serialize.hpp:56-59 | the chars of the string are appended one byte each, in order |
| `Serialize.SerializeU32` | sw/Utilities/public/Serialize.hpp:30-36 | the four big-endian bytes of the value are appended |
| `Serialize.Deserialize` | sw/Utilities/public/Serialize.hpp:63-119 | reads the overload selected by the item at the offset (no bounds checks, so readability is required), keeps the kind and never moves the offset back |
| `Serialize.DeserializeU32` | sw/Utilities/public/Serialize.hpp:85-91 | reads the big-endian value at the offset and advances it by exactly 4 |
| `Serialize.U16RoundTrip` | sw/Utilities/public/Serialize.hpp:24-83 | a uint16_t written most-significant byte first is read back, whatever surrounds it |
| `Serialize.U32RoundTrip` | sw/Utilities/public/Serialize.hpp:30-91 | a uint32_t written most-significant byte first is read back, whatever surrounds it |
| `Serialize.RoundTrip` | sw/Utilities/public/Serialize.hpp:14-119 | for every supported item, deserialize after serialize returns the item and advances the offset by exactly the bytes appended; the generic overload reads nothing |
| `Serialize.ScalarRoundTrip` | sw/Utilities/public/Serialize.hpp:14-106 | bool, signed and unsigned 8/16/32-bit values round-trip through their unsigned bit pattern |
| `Serialize.StringRoundTrip` | sw/Utilities/public/Serialize.hpp:53-119 | a string of byte chars round-trips through its length prefix and advances the offset by 4 + length |
| `Serialize.DecodeShift` | sw/Utilities/public/Serialize.hpp:63-119 | deserialize only reads the bytes from the offset on |
| `Serialize.StringLayout` | sw/Utilities/public/Serialize.hpp:53-60 | a string is its big-endian length followed by its bytes, and the first 4 bytes read back as the length |
| `Serialize.ReadItems` | sw/Utilities/public/Serialize.hpp:63-119 | a sequence of deserialize calls yields items of the requested kinds, or nothing when one is not readable |
| `Serialize.ItemsRoundTrip` | sw/Utilities/public/Serialize.hpp:14-119 | items serialized one after another anywhere in a buffer are deserialized back in order, ending right after them |
| `Common.SignedRoundTrip` | sw/Utilities/public/Serialize.hpp:38-106 | casting a signed value to the unsigned type of its width and back restores it |
| `Common.BytesStringRoundTrip` | sw/Utilities/public/Serialize.hpp:56-118 | chars cast to uint8_t and back restore a string of byte chars |
| `PersistenceHandler.EncodeSizeAsWritten` | sw/Utilities/source/PersistenceHandler.cpp:85-91 | as written, the size field is the low byte of the size followed by three zero bytes |
| `PersistenceHandler.EncodeSizeAsWrittenLoses` | sw/Utilities/source/PersistenceHandler.cpp:76-91 | decodeSize after the as-written encodeSize gives size mod 256, so a size round-trips iff it is below 256 |
| `PersistenceHandler.EncodeSizeAsWrittenCounterexample` | sw/Utilities/source/PersistenceHandler.cpp:85-91 | a 256-byte block is announced as empty |
| `PersistenceHandler.SmallImageAsWritten` | sw/Utilities/source/PersistenceHandler.cpp:47-91 | while every block holds fewer than 256 bytes the file as written is the intended image |
| `PersistenceHandler.SmallBlocksRestored` | sw/Utilities/source/PersistenceHandler.cpp:22-91 | a file saved as written from storable blocks of fewer than 256 bytes each parses back to exactly those blocks |
| `PersistenceHandler.EncodeSize` | sw/Utilities/source/PersistenceHandler.cpp:85-91 | the intended encodeSize writes exactly PERSISTENCE_DATA_BLOCK_SIZE bytes |
| `PersistenceHandler.SizeRoundTrip` | sw/Utilities/source/PersistenceHandler.cpp:76-91 | decodeSize (little-endian) reads back every 32-bit size the intended encodeSize wrote |
| `PersistenceHandler.EncodeBlock` | sw/Utilities/source/PersistenceHandler.cpp:59-67 | a block is its name, a NUL byte, 4 size bytes and its data |
| `PersistenceHandler.NameLength` | sw/Utilities/source/PersistenceHandler.cpp:26-27 | the block name ends at the first NUL byte |
| `PersistenceHandler.HeadEnd` | sw/Utilities/source/PersistenceHandler.cpp:26-33 | a complete block at the front of the buffer ends after at least one byte and within the buffer |
| `PersistenceHandler.ParseImage` | sw/Utilities/source/PersistenceHandler.cpp:22-68 | the walk of restore reads back exactly the blocks save wrote, when names are NUL-free byte strings |
| `PersistenceHandler.NameHasNoNul` | sw/Utilities/source/PersistenceHandler.cpp:26-61 | a storable name contains no NUL byte, so the reader stops right after it |
| `PersistenceHandler.HeadOfLayout` | sw/Utilities/source/PersistenceHandler.cpp:26-33 | name, NUL, size and that many data bytes are read back as one block ending where the data ends |
| `PersistenceHandler.BlockAtFront` | sw/Utilities/source/PersistenceHandler.cpp:26-67 | a stored block followed by anything is read back as that block |
| `PersistenceHandler.ParseAsWrittenCounterexample` | sw/Utilities/source/PersistenceHandler.cpp:65-91 | with the as-written encodeSize a saved 256-byte block is not restored as saved |
| `PersistenceHandler.DeliverTo` | sw/Utilities/source/PersistenceHandler.cpp:34-40 | a block reaches only listeners whose name equals the block name, with the block's data |
| `PersistenceHandler.DeliverToUnique` | sw/Utilities/source/PersistenceHandler.cpp:34-40 | with distinct names, the block of listener i reaches exactly that listener |
| `PersistenceHandler.NoneDelivered` | sw/Utilities/source/PersistenceHandler.cpp:34-40 | a block whose name no listener has is delivered to nobody |
| `PersistenceHandler.BlocksOf` | sw/Utilities/source/PersistenceHandler.cpp:55-68 | save produces one block per listener, in registration order, holding what that listener wrote |
| `PersistenceHandler.OwnData` | sw/Utilities/source/PersistenceHandler.cpp:34-40 | each listener paired with the data it wrote, in registration order |
| `PersistenceHandler.SaveRestore` | sw/Utilities/source/PersistenceHandler.cpp:22-68 | with distinct names, restoring the saved blocks hands every listener exactly its own data, in registration order |
| `PersistenceHandler.Handler.Save` | sw/Utilities/source/PersistenceHandler.cpp:47-75 | returns whether the file opened; the file holds every listener's block in registration order with the size field as written (only the size's low byte kept), or nothing |
| `PersistenceHandler.Handler.Restore` | sw/Utilities/source/PersistenceHandler.cpp:9-46 | false with no delivery for a missing or empty file; otherwise true and every block delivered by name; a well-formed buffer is required (no bounds checks) |
| `PersistenceHandler.DeliverBlocks` | sw/Utilities/source/PersistenceHandler.cpp:22-41 | the loop delivers the blocks of the buffer in order to the listeners with their names |
| `PersistenceHandler.ParseStep` | sw/Utilities/source/PersistenceHandler.cpp:22-33 | one turn of the walk strictly advances and leaves well-formed blocks behind |
| `PersistenceHandler.ReadBlock` | sw/Utilities/source/PersistenceHandler.cpp:26-33 | one turn reads the name up to NUL, the size and that many data bytes, and returns where the next block starts |
| `PersistenceHandler.FindNul` | sw/Utilities/source/PersistenceHandler.cpp:26 | returns the position of the first NUL at or after pos, or the end |
| `SocketHeader.GetHeaderSize` | sw/RPC/include/SocketHeaderHandler.hpp:16-50 | the header length equals the length of every serialized uint32_t (4 bytes) |
| `SocketHeader.PrepareHeader` | sw/RPC/include/SocketHeaderHandler.hpp:24-27 | exactly four bytes are appended, earlier bytes untouched, and they are the big-endian encoding of the size |
| `SocketHeader.DecodeMessageLength` | sw/RPC/include/SocketHeaderHandler.hpp:34-41 | the length is the big-endian uint32 read from offset 0; at least four bytes are required |
| `SocketHeader.HeaderRoundTrip` | sw/RPC/include/SocketHeaderHandler.hpp:24-41 | decoding a header prepared into an empty buffer gives back the size, whatever payload follows |
| `Persistence.ItemEquals` | sw/Utilities/public/Persistence.h:21-24 | two items are equal iff both key and value are equal |
| `Persistence.WriteString` | sw/Utilities/public/Persistence.h:56-60 | exactly one item holding the string verbatim is appended; earlier items are untouched |
| `Persistence.WriteNumber` | sw/Utilities/public/Persistence.h:51-55 | exactly one item holding the std::to_string text of the number is appended |
| `Persistence.BoolToInt` | sw/Utilities/public/Persistence.h:54 | a bool is written as 0 or 1, non-zero iff true |
| `Persistence.Lookup` | sw/Utilities/public/Persistence.h:61-86 | absent iff no item has the key; otherwise the value of an item with that key |
| `Persistence.ReadString` | sw/Utilities/public/Persistence.h:74-86 | true with the first matching value, or false with the result left unchanged |
| `Persistence.CastTo` | sw/Utilities/public/Persistence.h:68 | static_cast keeps a value the target type can hold and always yields a value of that type; bool tests non-zero |
| `Persistence.ReadNumber` | sw/Utilities/public/Persistence.h:61-73 | missing iff no key matches; otherwise the first match is parsed with stoll (a conversion error when it throws) and cast to the target type |
| `Persistence.NumberOr` | sw/Utilities/public/Persistence.h:61-73 | reading into an in-range variable leaves it in range |
| `Persistence.NumberReadBack` | sw/Utilities/public/Persistence.h:54-68 | stoll reads back the to_string text of any in-range number and the cast keeps it |
| `Persistence.NumberFieldReadBack` | sw/Utilities/public/Persistence.h:51-73 | a field whose first item holds the decimal text of an in-range value reads back as that value |
| `Persistence.LookupAppended` | sw/Utilities/public/Persistence.h:51-86 | a key appended after items without it is found with the value written |
| `Persistence.LookupKeepsFirst` | sw/Utilities/public/Persistence.h:61-86 | later items never hide the first item with a key |
| `Persistence.NumberRoundTrip` | sw/Utilities/public/Persistence.h:51-73 | writeItem then readItem on a fresh key restores any in-range integer |
| `Persistence.LookupUnique` | sw/Utilities/public/Persistence.h:61-86 | with distinct keys every item is what the lookup of its key finds |
| `Persistence.LookupAt` | sw/Utilities/public/Persistence.h:61-86 | an item whose key no earlier item has is the one found |
| `Listeners.RemoveFirst` | sw/Utilities/public/GenericListener.hpp:17-25 | an absent listener leaves the list unchanged; otherwise exactly one occurrence is removed |
| `Listeners.AddThenRemove` | sw/Utilities/public/GenericListener.hpp:11-25 | adding then removing a listener restores the registered multiset, and the exact list when it was not registered before |
| `Listeners.NonNull` | sw/Utilities/public/GenericListener.hpp:29-36 | the non-null registered pointers: every one is kept and nothing else appears |
| `Listeners.NonNullAppend` | sw/Utilities/public/GenericListener.hpp:14-34 | a newly added non-null listener is notified last and a null one never |
| `Listeners.Deliver` | sw/Utilities/public/GenericListener.hpp:29-36 | every non-null listener receives the notification once, in registration order |
| `Listeners.ListenerList.AddListener` | sw/Utilities/public/GenericListener.hpp:11-15 | the listener is appended at the end; duplicates are allowed |
| `Listeners.ListenerList.RemoveListener` | sw/Utilities/public/GenericListener.hpp:17-25 | the list becomes the old list with its first occurrence of the listener removed |
| `Listeners.ListenerList.NotifyChange` | sw/Utilities/public/GenericListener.hpp:29-36 | the function is applied to each listener, in registration order |
| `Stylesheets.TagProperty` | sw/GUIController/public/GUIControllerHelpers.hpp:151 | the property is the tag's prefix before the first ':', the whole tag when there is none |
| `Stylesheets.TagValue` | sw/GUIController/public/GUIControllerHelpers.hpp:152 | the value is the text after the first '#', or the whole tag when there is none (npos + 1 wraps to 0) |
| `Stylesheets.TagItem` | sw/GUIController/public/GUIControllerHelpers.hpp:154-162 | a tag selects COLOR iff its property is "color"; every other property, unknown ones included, selects BACKGROUND_COLOR |
| `Stylesheets.Settings` | sw/GUIController/public/GUIControllerHelpers.hpp:149-164 | one (item, colour) setting per tag, in tag order |
| `Stylesheets.TagsOfText` | sw/GUIController/public/GUIControllerHelpers.hpp:142-149 | a generated stylesheet splits into exactly its background tag and its colour tag |
| `Stylesheets.TagParts` | sw/GUIController/public/GUIControllerHelpers.hpp:151-152 | in "<property>: #<value>" the property ends at ':' and the value starts after '#' |
| `Stylesheets.ReadTag` | sw/GUIController/public/GUIControllerHelpers.hpp:142-163 | a generated tag sets the item its property names to the colour written |
| `Stylesheets.HexColorOfText` | sw/GUIController/public/GUIControllerHelpers.hpp:142-153 | strtol base 16 of the "%.6x" text truncated to 32 bits is the colour written, for every 32-bit value |
| `Stylesheets.ParseOfText` | sw/GUIController/public/GUIControllerHelpers.hpp:139-165 | parsing a generated stylesheet gives back exactly both colours |
| `Stylesheets.UnknownPropertySetsBackground` | sw/GUIController/public/GUIControllerHelpers.hpp:154-163 | a tag whose property is not "color" overwrites BACKGROUND_COLOR with its colour |
| `Stylesheets.ParseTag` | sw/GUIController/public/GUIControllerHelpers.hpp:151-162 | one tag yields the item named by its property and the colour after '#' |
| `Stylesheets.ParseTags` | sw/GUIController/public/GUIControllerHelpers.hpp:145-165 | the parse loop applies the tags in order, a later tag overriding an earlier one |
| `Stylesheets.Stylesheet.FromText` | sw/GUIController/public/GUIControllerHelpers.hpp:117-123 | the text is kept and the colours are those parsed from it after both were zeroed |
| `Stylesheets.Stylesheet.GetColor` | sw/GUIController/public/GUIControllerHelpers.hpp:125-128 | the result never exceeds 0xFFFFFF and equals a stored colour that fits 24 bits |
| `Stylesheets.Stylesheet.SetColor` | sw/GUIController/public/GUIControllerHelpers.hpp:130-144 | stores colour & 0xFFFFFF, keeps the other item's colour and regenerates the text from both |
| `Stylesheets.Stylesheet.TextRoundTrip` | sw/GUIController/public/GUIControllerHelpers.hpp:125-165 | parsing the text setColor generated yields the same two colours |
| `Stylesheets.Stylesheet.constructor` | sw/GUIController/public/GUIControllerHelpers.hpp:112-115 | a default stylesheet has no colour set and no text |
| `LegacyStylesheet.Stylesheet.FromText` | sw/MainApplication/public/GUIController.h:95-102 | the text is kept and the colours are those parsed from it after both are zeroed |
| `LegacyStylesheet.Stylesheet.GetColor` | sw/MainApplication/public/GUIController.h:104-107 | returns the stored colour unmasked, 0 for an item never set |
| `LegacyStylesheet.Stylesheet.SetColor` | sw/MainApplication/public/GUIController.h:109-123 | stores the full 32-bit colour, keeps the other item, and regenerates `background-color: #..;color: #..;` |
| `LegacyStylesheet.Stylesheet.TextRoundTrip` | sw/MainApplication/public/GUIController.h:118-145 | parsing the generated text gives back both colours for any 32-bit value |
| `LegacyStylesheet.Stylesheet.constructor` | sw/MainApplication/public/GUIController.h:91-94 | a default stylesheet has no colour set and no text |
| `ButtonCommandsParser.Outcome` | sw/MainApplication/include/ButtonCommandsParser.hpp:100-150 | a wait command always succeeds; a plain command answers what the writer answers |
| `ButtonCommandsParser.MatchSpecial` | sw/MainApplication/include/ButtonCommandsParser.hpp:113-116 | a match splits the whole line into a "__" name, '(' , an argument without '(' and a final ')' |
| `ButtonCommandsParser.MatchOfSpecial` | sw/MainApplication/include/ButtonCommandsParser.hpp:113-116 | every line "__name(argument)" whose argument holds no '(' matches with exactly those two groups |
| `ButtonCommandsParser.WaitCommands` | sw/MainApplication/include/ButtonCommandsParser.hpp:139-152 | every wait step is positive and at most 500 ms |
| `ButtonCommandsParser.WaitSteps` | sw/MainApplication/include/ButtonCommandsParser.hpp:139-152 | a wait of N ms becomes ceil(N/500) steps that sum to N |
| `ButtonCommandsParser.WaitStepSizes` | sw/MainApplication/include/ButtonCommandsParser.hpp:142-149 | every step but the last is 500 ms, and the last is N mod 500 when that is not 0 |
| `ButtonCommandsParser.RepeatEndFrom` | sw/MainApplication/include/ButtonCommandsParser.hpp:171-201 | an end found lies between the start of the scan and the last line |
| `ButtonCommandsParser.RepeatEnd` | sw/MainApplication/include/ButtonCommandsParser.hpp:171-201 | the matching end, when found, is after the start line |
| `ButtonCommandsParser.RepeatEndFromDepth` | sw/MainApplication/include/ButtonCommandsParser.hpp:176-198 | the scan's skip counter is the nesting depth of the lines seen so far |
| `ButtonCommandsParser.RepeatEndIsFirstUnbalanced` | sw/MainApplication/include/ButtonCommandsParser.hpp:171-201 | findRepeatEnd returns the first line where the nesting depth drops below zero, and no end when it never does |
| `ButtonCommandsParser.Repeat` | sw/MainApplication/include/ButtonCommandsParser.hpp:165-168 | X rounds of a body hold X times its commands |
| `ButtonCommandsParser.RepeatRounds` | sw/MainApplication/include/ButtonCommandsParser.hpp:165-168 | one round is the body; a + b rounds are a rounds followed by b rounds |
| `ButtonCommandsParser.Classify` | sw/MainApplication/include/ButtonCommandsParser.hpp:105-138 | a line is plain iff it does not start with "__"; a wait or loop is recognised only with a positive atoi argument and the matching name |
| `ButtonCommandsParser.SpecialCommand` | sw/MainApplication/include/ButtonCommandsParser.hpp:109-170 | a special line consumes at least one line and never more than remain |
| `ButtonCommandsParser.PlainLines` | sw/MainApplication/include/ButtonCommandsParser.hpp:91-102 | lines without "__" become one writer command each with exactly their text, in order |
| `ButtonCommandsParser.IgnoredSpecialLine` | sw/MainApplication/include/ButtonCommandsParser.hpp:109-138 | an unmatched "__" line, an unknown name, a non-positive wait or loop count is consumed and produces nothing |
| `ButtonCommandsParser.WaitLine` | sw/MainApplication/include/ButtonCommandsParser.hpp:118-127 | "__wait(N)" with atoi(N) > 0 produces its wait steps, then the next line is processed |
| `ButtonCommandsParser.WaitLineKind` | sw/MainApplication/include/ButtonCommandsParser.hpp:113-127 | a line "__wait(N)" with atoi(N) > 0 is classified as a wait of atoi(N) ms |
| `ButtonCommandsParser.LoopLine` | sw/MainApplication/include/ButtonCommandsParser.hpp:128-170 | a loop with a matching end expands its body X times and consumes body + 2 lines |
| `ButtonCommandsParser.UnclosedLoop` | sw/MainApplication/include/ButtonCommandsParser.hpp:157-162 | a loop without matching end consumes only its own line; the body lines are processed normally |
| `ButtonCommandsParser.SpecialOfKind` | sw/MainApplication/include/ButtonCommandsParser.hpp:109-138 | what processSpecialCommand produces and consumes for each kind of special line |
| `ButtonCommandsParser.Parser.constructor` | sw/MainApplication/include/ButtonCommandsParser.hpp:203-205 | a new parser holds no commands and its cursor is at the start |
| `ButtonCommandsParser.Parser.ParseCommands` | sw/MainApplication/include/ButtonCommandsParser.hpp:44-85 | earlier commands are discarded, the commands of the '\\n'-split text are stored, the cursor rewound and the new count returned |
| `ButtonCommandsParser.Parser.Reset` | sw/MainApplication/include/ButtonCommandsParser.hpp:53-56 | the cursor returns to the first command and the commands are kept |
| `ButtonCommandsParser.Parser.RunNext` | sw/MainApplication/include/ButtonCommandsParser.hpp:57-65 | runs the command under the cursor and advances it; at the end nothing runs and the result is false |
| `ButtonCommandsParser.Parser.CommandsCount` | sw/MainApplication/include/ButtonCommandsParser.hpp:66-69 | the number of parsed commands |
| `ButtonCommandsParser.Parser.CommandsExecuted` | sw/MainApplication/include/ButtonCommandsParser.hpp:70-73 | the cursor position |
| `ButtonCommandsParser.Parser.ProcessStrings` | sw/MainApplication/include/ButtonCommandsParser.hpp:86-104 | the commands of every line are appended in order and the cursor is untouched |
| `ButtonCommandsParser.Parser.ProcessSpecialCommand` | sw/MainApplication/include/ButtonCommandsParser.hpp:109-138 | appends the commands of the special line and returns how many lines it consumed |
| `ButtonCommandsParser.Parser.PrepareWaitCommand` | sw/MainApplication/include/ButtonCommandsParser.hpp:139-152 | appends the wait steps of the time |
| `ButtonCommandsParser.Parser.PrepareRepeatCommand` | sw/MainApplication/include/ButtonCommandsParser.hpp:153-170 | without a matching end appends nothing and consumes 1 line; otherwise appends X rounds of the body and consumes body + 2 lines |
| `ButtonCommandsParser.Parser.RepeatLoop` | sw/MainApplication/include/ButtonCommandsParser.hpp:165-168 | the body is processed once per round, X rounds appended |
| `ButtonCommandsParser.FindRepeatEnd` | sw/MainApplication/include/ButtonCommandsParser.hpp:171-201 | the loop returns the matching end defined by the skip rule |
| `ButtonCommandsParser.Parser.ProcessLine` | sw/MainApplication/include/ButtonCommandsParser.hpp:86-104 | one pass of the loop consumes at least the current line, never past the end, and appends exactly what that line contributes |
| `ButtonCommandsExecutor.Action` | sw/MainApplication/include/ButtonCommandsExecutor.hpp:130-145 | a line is sent iff it lacks the "__" prefix; only a matching "__wait" yields a pause (stoi converted to uint32_t) or a stoi exception |
| `ButtonCommandsExecutor.LineCommands` | sw/MainApplication/include/ButtonCommandsExecutor.hpp:114-145 | a line yields no commands exactly when std::stoi throws on it |
| `ButtonCommandsExecutor.BuildStep` | sw/MainApplication/include/ButtonCommandsExecutor.hpp:111-122 | one turn of the getline loop appends the line's commands, or stops the parse when stoi throws |
| `ButtonCommandsExecutor.ParseGoesOn` | sw/MainApplication/include/ButtonCommandsExecutor.hpp:111-122 | after a line that raised nothing the loop continues with the next line |
| `ButtonCommandsExecutor.ParseStopped` | sw/MainApplication/include/ButtonCommandsExecutor.hpp:142 | an exception from stoi ends parsing at that line with no further commands |
| `ButtonCommandsExecutor.PlainLinesBuild` | sw/MainApplication/include/ButtonCommandsExecutor.hpp:111-122 | plain lines become one writer command each, in order, and parsing finishes |
| `ButtonCommandsExecutor.OtherSpecialLine` | sw/MainApplication/include/ButtonCommandsExecutor.hpp:134-145 | any special line other than a matching "__wait" is consumed and produces nothing |
| `ButtonCommandsExecutor.NegativeWait` | sw/MainApplication/include/ButtonCommandsExecutor.hpp:142-146 | "__wait(N)" with negative N becomes a pause of N + 2^32 ms, at least 2^31 ms |
| `ButtonCommandsExecutor.FirstFailure` | sw/MainApplication/include/ButtonCommandsExecutor.hpp:165-176 | every command before the index succeeds and the command at the index, if any, fails |
| `ButtonCommandsExecutor.Executor.constructor` | sw/MainApplication/include/ButtonCommandsExecutor.hpp:48-54 | no commands, empty text, neither flag set |
| `ButtonCommandsExecutor.Executor.Execute` | sw/MainApplication/include/ButtonCommandsExecutor.hpp:67-75 | starts iff not already running, and the running flag is then set |
| `ButtonCommandsExecutor.Executor.Abort` | sw/MainApplication/include/ButtonCommandsExecutor.hpp:77-92 | the running flag is cleared only when both the running and thread-running flags were set |
| `ButtonCommandsExecutor.Executor.ParseCommands` | sw/MainApplication/include/ButtonCommandsExecutor.hpp:100-127 | refused with 0 and nothing changed while running; otherwise the text is kept and its lines become the commands |
| `ButtonCommandsExecutor.Executor.ParseLine` | sw/MainApplication/include/ButtonCommandsExecutor.hpp:111-122 | one line's commands are appended, or false when stoi threw |
| `ButtonCommandsExecutor.Executor.AddSpecialCommand` | sw/MainApplication/include/ButtonCommandsExecutor.hpp:134-145 | appends the pauses of a "__wait(N)" line; false stands for the stoi exception |
| `ButtonCommandsExecutor.Executor.PrepareWaitCommand` | sw/MainApplication/include/ButtonCommandsExecutor.hpp:146-159 | appends 500 ms steps and the remainder, summing to the time |
| `ButtonCommandsExecutor.Executor.ThreadLoop` | sw/MainApplication/include/ButtonCommandsExecutor.hpp:160-185 | commands run in order until the first failure or an abort; the callback gets true iff every command ran; both flags are cleared afterwards |
| `Timers.Find` | sw/Utilities/source/TimersImpl.cpp:59-93 | the index of the first timer with the ID, or the table size when none has it |
| `Timers.NextId` | sw/Utilities/source/TimersImpl.cpp:44-49 | the next ID after the last one in a 32-bit counter, never TIMERS_INVALID_ID (0xFF is skipped) |
| `Timers.Expire` | sw/Utilities/source/TimersImpl.cpp:160-165 | on expiry the current timeout reverts to the default and only a periodic timer keeps running |
| `Timers.DueIds` | sw/Utilities/source/TimersImpl.cpp:153-167 | every ID told on a pass belongs to a running timer that is due |
| `Timers.WellFormedUpdate` | sw/Utilities/source/TimersImpl.cpp:100-165 | updates that keep ID, default timeout and client keep every timer's ID and default valid |
| `Timers.TimersTable.constructor` | sw/Utilities/source/TimersImpl.cpp:13-19 | the table starts empty with the ID counter at 0 |
| `Timers.TimersTable.Stop` | sw/Utilities/source/TimersImpl.cpp:30-36 | the table is emptied |
| `Timers.TimersTable.CreateTimer` | sw/Utilities/source/TimersImpl.cpp:38-55 | an invalid timeout or a null client gives 0xFF and no change; otherwise the next ID (skipping 0xFF) is returned and a stopped, one-shot timer with current = default timeout is appended |
| `Timers.TimersTable.RemoveTimer` | sw/Utilities/source/TimersImpl.cpp:56-65 | the first timer with the ID is erased; an unknown ID changes nothing |
| `Timers.TimersTable.SetTimeout` | sw/Utilities/source/TimersImpl.cpp:66-84 | true iff the timeout is valid (> 0, multiple of 10) and the ID known; then both default and current timeout are set, otherwise nothing changes |
| `Timers.TimersTable.GetTimeout` | sw/Utilities/source/TimersImpl.cpp:89-99 | the current timeout of the timer, 0 for an unknown ID |
| `Timers.TimersTable.StartTimer` | sw/Utilities/source/TimersImpl.cpp:100-110 | the timer runs; nothing else changes |
| `Timers.TimersTable.StartTimerWithTimeout` | sw/Utilities/source/TimersImpl.cpp:111-122 | the timer runs and only its current timeout is overridden, without validation |
| `Timers.TimersTable.StartTimerPeriodic` | sw/Utilities/source/TimersImpl.cpp:123-134 | the timer runs and its periodic flag is set as given |
| `Timers.TimersTable.StopTimer` | sw/Utilities/source/TimersImpl.cpp:135-144 | the timer stops; timeouts and flags are kept |
| `Timers.TimersTable.ExpiryPass` | sw/Utilities/source/TimersImpl.cpp:146-173 | every running, due timer expires (one-shot stops, periodic keeps running, current timeout reset) and its client is told, in table order; others are unchanged |
| `Timers.FindAfterUpdate` | sw/Utilities/source/TimersImpl.cpp:59-93 | updating the found entry without changing its ID keeps it the entry found |
| `Timers.FindFirst` | sw/Utilities/source/TimersImpl.cpp:59-93 | the first timer with the ID is the one found |
| `SettingsStore.Set` | sw/Settings/source/SettingsHandler.cpp:35-49 | set_setting stores the value in the map of its own type and leaves the other two maps untouched |
| `SettingsStore.Get` | sw/Settings/source/SettingsHandler.cpp:50-63 | get_setting yields a value of the requested type |
| `SettingsStore.Touch` | sw/Settings/source/SettingsHandler.cpp:283-297 | the operator[] insertion does not change what the setting reads as |
| `SettingsStore.SetOwn` | sw/Settings/source/SettingsHandler.cpp:300-331 | setting a value of the setting's own type makes it that setting's value |
| `SettingsStore.SetOther` | sw/Settings/source/SettingsHandler.cpp:300-331 | setting one setting leaves every other setting's value unchanged |
| `SettingsStore.DefaultsHold` | sw/Settings/source/SettingsHandler.cpp:84-94 | after the constructor every setting holds its SETTING_GROUPS default |
| `SettingsStore.DefaultsPresent` | sw/Settings/source/SettingsHandler.cpp:88-92 | each constructor step leaves the settings done so far with a value of their own type |
| `SettingsStore.FromString` | sw/Settings/source/SettingsHandler.cpp:269-278 | the index of the first setting with the name, or SETTING_GROUP_MAX when none has it |
| `SettingsStore.FromStringOfName` | sw/Settings/source/SettingsHandler.cpp:264-278 | fromString(toString(id)) is id for every known setting when names are distinct |
| `SettingsStore.GetType` | sw/Settings/source/SettingsHandler.cpp:219-243 | UNKNOWN iff the id is in no map; the U32 map is consulted first, then BOOL, then STRING |
| `SettingsStore.TypeName` | sw/Settings/source/SettingsHandler.cpp:212-214 | the type name written is "uint32_t", "bool" or "std::string" |
| `SettingsStore.ReadValue` | sw/Settings/source/SettingsHandler.cpp:184-201 | the value read after a type name never moves the offset back or past the data |
| `SettingsStore.ReadHeader` | sw/Settings/source/SettingsHandler.cpp:179-180 | the name and type name take at least 8 bytes and stay within the data |
| `SettingsStore.ReadTriple` | sw/Settings/source/SettingsHandler.cpp:175-201 | one triple advances the offset by at least 8 bytes, within the data |
| `SettingsStore.ValueReads` | sw/Settings/source/SettingsHandler.cpp:184-214 | a value written after its type name reads back through the overload the type name selects |
| `SettingsStore.RecordReads` | sw/Settings/source/SettingsHandler.cpp:179-214 | one written (name, type, value) record reads back as its triple, wherever it sits |
| `SettingsStore.ReadAllStep` | sw/Settings/source/SettingsHandler.cpp:173-202 | one loop turn reads a triple, then the rest of the data |
| `SettingsStore.ReadAllShift` | sw/Settings/source/SettingsHandler.cpp:171-202 | the read loop depends only on the bytes after the offset |
| `SettingsStore.ReadImage` | sw/Settings/source/SettingsHandler.cpp:169-218 | reading back what onPersistenceWrite wrote gives exactly its triples |
| `SettingsStore.ApplyTriples` | sw/Settings/source/SettingsHandler.cpp:182-201 | applying the saved triples gives every setting its saved value when names are distinct |
| `SettingsStore.PersistenceRoundTrip` | sw/Settings/source/SettingsHandler.cpp:169-218 | write followed by read into any store restores every setting's value |
| `SettingsStore.ListenersOf` | sw/Settings/source/SettingsHandler.cpp:352-361 | only listeners registered for that setting are notified |
| `SettingsStore.ListenersOfRegister` | sw/Settings/source/SettingsHandler.cpp:333-361 | a registered listener is notified last for its setting; other settings' lists are unchanged |
| `SettingsStore.FromStringExists` | sw/Settings/source/SettingsHandler.cpp:269-278 | fromString finds a setting exactly when settingExist holds |
| `SettingsStore.SetComplete` | sw/Settings/source/SettingsHandler.cpp:35-49 | storing a value keeps every setting present in the map of its own type |
| `SettingsStore.ApplyComplete` | sw/Settings/source/SettingsHandler.cpp:182-201 | applying a read triple keeps every setting present |
| `SettingsStore.DefaultsComplete` | sw/Settings/source/SettingsHandler.cpp:84-94 | after the constructor every setting of the table has a value |
| `SettingsStore.GetOwnType` | sw/Settings/source/SettingsHandler.cpp:279-298 | reading a setting with its own type inserts nothing |
| `SettingsStore.GetU32ChangesType` | sw/Settings/source/SettingsHandler.cpp:219-284 | getU32 on a setting without a u32 value inserts 0, after which getType reports U32 |
| `SettingsStore.SettingsHandler.constructor` | sw/Settings/source/SettingsHandler.cpp:84-94 | every setting holds its default and no listener is registered |
| `SettingsStore.SettingsHandler.SetSetting` | sw/Settings/source/SettingsHandler.cpp:35-49 | the value goes into the map of its type and nobody is notified |
| `SettingsStore.SettingsHandler.GetU32` | sw/Settings/source/SettingsHandler.cpp:279-284 | the stored value, or 0 inserted by operator[] |
| `SettingsStore.SettingsHandler.GetBool` | sw/Settings/source/SettingsHandler.cpp:293-298 | the stored value, or false inserted by operator[] |
| `SettingsStore.SettingsHandler.GetString` | sw/Settings/source/SettingsHandler.cpp:286-291 | the stored value, or "" inserted by operator[] |
| `SettingsStore.SettingsHandler.SetU32` | sw/Settings/source/SettingsHandler.cpp:300-309 | stores the value, notifies the setting's listeners even when unchanged, and returns true iff it differs from the previous value |
| `SettingsStore.SettingsHandler.SetBool` | sw/Settings/source/SettingsHandler.cpp:322-331 | stores the value, notifies the setting's listeners and returns true iff it changed |
| `SettingsStore.SettingsHandler.SetString` | sw/Settings/source/SettingsHandler.cpp:311-320 | stores the value, notifies the setting's listeners and returns true iff it changed |
| `SettingsStore.SettingsHandler.NotifyListeners` | sw/Settings/source/SettingsHandler.cpp:352-361 | the listeners registered for the id are told, in registration order |
| `SettingsStore.SettingsHandler.RegisterListener` | sw/Settings/source/SettingsHandler.cpp:333-340 | a null listener is ignored; otherwise the (id, listener) pair is appended |
| `SettingsStore.SettingsHandler.UnregisterListener` | sw/Settings/source/SettingsHandler.cpp:342-350 | the first matching (id, listener) pair is removed |
| `SettingsStore.SettingsHandler.OnPersistenceWrite` | sw/Settings/source/SettingsHandler.cpp:209-218 | a (name, type name, value) triple for every setting, in table order, appended to the data |
| `SettingsStore.SettingsHandler.OnPersistenceRead` | sw/Settings/source/SettingsHandler.cpp:169-204 | every triple is applied in order until offset == size; unknown names and type names change nothing |
| `SettingsStore.SettingsHandler.ReadSetting` | sw/Settings/source/SettingsHandler.cpp:175-201 | one loop turn: name, type name, the value that type selects, applied only if the name exists |
| `Framing.RecvResult.Count` | sw/Drivers/source/SocketClient.cpp:251-273 | recv returns 0 exactly when the peer closed and a negative value exactly on failure |
| `Framing.FindDelimiter` | sw/Drivers/source/SocketClient.cpp:258 | the position of the first '\\n' in the filled part, or its end |
| `Framing.FramesSound` | sw/Drivers/source/SocketClient.cpp:252-272 | emitted frames concatenated with the retained bytes equal the received bytes; every frame ends with its only '\\n'; no '\\n' is retained |
| `Framing.FirstFrame` | sw/Drivers/source/SocketClient.cpp:258-265 | the prefix up to and including the first '\\n' is the first frame emitted |
| `Framing.FramesUnique` | sw/Drivers/source/SocketClient.cpp:252-272 | any split into '\\n'-terminated frames and delimiter-free rest is the one the loop computes |
| `Framing.Find` | sw/Drivers/source/SocketClient.cpp:258 | std::find over buf[0..n) returns the first delimiter position |
| `Framing.ShiftDown` | sw/Drivers/source/SocketClient.cpp:263 | the bytes after the frame move to the front of the buffer; bytes beyond are untouched |
| `Framing.ExtractFrames` | sw/Drivers/source/SocketClient.cpp:255-271 | the do-while loop emits exactly the frames of the filled part and leaves the retained bytes at the front |
| `Framing.CutFrame` | sw/Drivers/source/SocketClient.cpp:258-269 | one round emits the first frame and shifts the remainder, or reports that no '\\n' is left |
| `Framing.Deposit` | sw/Drivers/source/SocketClient.cpp:251-254 | recv stores its bytes at the index, leaving the bytes before it unchanged |
| `Framing.StoreAt` | sw/Drivers/source/SocketClient.cpp:247-250 | a full buffer wraps the index to 0 (the pending bytes are dropped); otherwise the index is kept |
| `Framing.ReceiveStep` | sw/Drivers/source/SocketClient.cpp:245-279 | one pass: wrap when full, append the received bytes, emit the frames and keep the remainder; a 0-byte recv reports closing |
| `Framing.NoByteLost` | sw/Drivers/source/SocketClient.cpp:252-272 | frames plus retained bytes account for old pending bytes plus new ones; without '\\n' nothing is emitted |
| `SocketWrite.WriteBufferLayout` | sw/Drivers/source/SocketClient.cpp:177-182 | the write buffer is data[0..size), preceded in PAYLOAD_HEADER mode by the 4-byte big-endian size that decodes back to size |
| `SocketWrite.SendResult` | sw/Drivers/source/SocketClient.cpp:192 | send returns at most the bytes asked for, and a positive count when the socket accepts bytes |
| `SocketWrite.SendLoopAsWrittenBounded` | sw/Drivers/source/SocketClient.cpp:186-203 | the as-written loop never sends past the end of the buffer |
| `SocketWrite.SendLoopAsWrittenAllSent` | sw/Drivers/source/SocketClient.cpp:186-203 | when the as-written loop has sent every byte it reports true |
| `SocketWrite.PartialSendsReportSuccess` | sw/Drivers/source/SocketClient.cpp:186-203 | sends of 3, 3 and 1 bytes of a 10-byte buffer end the as-written loop with success after 7 bytes; the intended loop sends all 10 |
| `SocketWrite.SendLoopComplete` | sw/Drivers/source/SocketClient.cpp:186-203 | the intended loop reports success exactly when every byte was sent, and fails on the first non-positive send |
| `SocketWrite.SendAllAsWritten` | sw/Drivers/source/SocketClient.cpp:186-203 | the as-written loop's result and the prefix of the buffer that reached send |
| `SocketWrite.SendAll` | sw/Drivers/source/SocketClient.cpp:186-203 | the corrected loop returns true iff the whole buffer reached send, in order |
| `SocketWrite.Write` | sw/Drivers/source/SocketClient.cpp:172-206 | a buffer over 4096 bytes is refused without sending; otherwise the result and the bytes that reach send are those of the send loop as written, always a prefix of the buffer, and a buffer that went out whole reports true |
| `SocketClient.FrameEvents` | sw/Drivers/source/SocketClient.cpp:262 | one SERVER_DATA_RECV notification per frame, carrying the frame and its length |
| `SocketClient.Client.constructor` | sw/Drivers/source/SocketClient.cpp:75-80 | idle, fd -1, a 4096-byte receive buffer at index 0, no listeners |
| `SocketClient.Client.Connect` | sw/Drivers/source/SocketClient.cpp:81-142 | refused when already connected; any failed step after socket() closes it and resets the fd to -1; true iff every step and the thread start succeeded |
| `SocketClient.Client.Disconnect` | sw/Drivers/source/SocketClient.cpp:143-153 | a connected client moves to DISCONNECTING; otherwise nothing changes |
| `SocketClient.Client.ThreadWakeUp` | sw/Drivers/source/SocketClient.cpp:215-223 | a CONNECTING client becomes CONNECTED and reading starts |
| `SocketClient.Client.ReadingEnded` | sw/Drivers/source/SocketClient.cpp:236-239 | after reading the socket is closed, the fd is -1 and the state IDLE |
| `SocketClient.Client.AddListener` | sw/Drivers/source/SocketClient.cpp:158-162 | the listener is appended, null and duplicates included; a non-null one is notified last |
| `SocketClient.Client.RemoveListener` | sw/Drivers/source/SocketClient.cpp:163-171 | only the first occurrence is removed |
| `SocketClient.Client.NotifyListeners` | sw/Drivers/source/SocketClient.cpp:320-330 | every non-null listener receives the notification, in registration order |
| `SocketClient.Client.Write` | sw/Drivers/source/SocketClient.cpp:172-206 | totals over 4096 are refused without sending; otherwise the send loop as written: a prefix of the header-then-payload buffer goes out, with true whenever all of it did |
| `SocketClient.Client.DelimiterStep` | sw/Drivers/source/SocketClient.cpp:242-282 | one pass emits the '\\n'-terminated frames in order and keeps the rest at the front; a full buffer wraps to 0; a 0-byte recv emits SERVER_DISCONNECTED once and ends reading |
| `SocketClient.Client.HeaderStep` | sw/Drivers/source/SocketClient.cpp:284-319 | a complete 4-byte header is followed by a payload read; it is reported when its size equals the announced length, and a 0-byte read emits SERVER_DISCONNECTED and ends |
| `ClientHandler.ThreadName` | sw/Drivers/source/ClientHandler.cpp:179-182 | "CLIENT" followed by the decimal client id, which reads back as the id |
| `ClientHandler.Handler.constructor` | sw/Drivers/source/ClientHandler.cpp:32-41 | keeps id, mode and listener; a fixed 4096-byte buffer at index 0 |
| `ClientHandler.Handler.GetClientID` | sw/Drivers/source/ClientHandler.cpp:89-92 | the id given to the constructor |
| `ClientHandler.Handler.Heard` | sw/Drivers/source/ClientHandler.cpp:128-173 | with a null listener every event is suppressed; otherwise all of them are delivered |
| `ClientHandler.Handler.FrameEvents` | sw/Drivers/source/ClientHandler.cpp:128 | one DATA_RECEIVED notification per frame with its length |
| `ClientHandler.Handler.Write` | sw/Drivers/source/ClientHandler.cpp:54-87 | the header-then-payload buffer; totals over 4096 are refused; otherwise the send loop as written: a prefix of the buffer goes out, with true whenever all of it did |
| `ClientHandler.Handler.DelimiterStep` | sw/Drivers/source/ClientHandler.cpp:109-146 | emits the '\\n'-terminated prefixes as DATA_RECEIVED and shifts the remainder; the index wraps to 0 when full; a 0-byte recv emits CLIENT_DISCONNECTED and stops |
| `ClientHandler.Handler.HeaderStep` | sw/Drivers/source/ClientHandler.cpp:148-177 | a payload larger than the 4096-byte buffer is reported as overflow and changes nothing; otherwise it goes into the fixed buffer and, when the count as uint32 equals payload_size, the event carries the whole buffer with size payload_size; a 0-byte read emits CLIENT_DISCONNECTED and stops |
| `SerialDriver.NamesDistinct` | sw/Drivers/source/QtSerialDriver.cpp:15-30 | no two enumerators of an enum share a name, so the name lookup is unambiguous |
| `SerialDriver.ToName` | sw/Drivers/source/QtSerialDriver.cpp:36-62 | a valid value of the four enums gets its entry in the name table; the generic template gives "" |
| `SerialDriver.FromName` | sw/Drivers/source/QtSerialDriver.cpp:66-112 | the result is below MAX iff the name is in the table, MAX otherwise; the generic template gives 0 |
| `SerialDriver.NameRoundTrip` | sw/Drivers/source/QtSerialDriver.cpp:36-112 | fromName inverts toName on every valid value and toName inverts fromName on every known name |
| `SerialDriver.EnumValue.constructor` | sw/Drivers/source/QtSerialDriver.cpp:36-112 | keeps the kind and the value |
| `SerialDriver.EnumValue.SetFromName` | sw/Drivers/source/QtSerialDriver.cpp:71-112 | the stored value becomes the name's index or MAX; the generic template leaves it alone |
| `SerialDriver.FrameEvents` | sw/Drivers/source/QtSerialDriver.cpp:216 | one DATA_RECV notification per frame with its length |
| `SerialDriver.Driver.constructor` | sw/Drivers/source/QtSerialDriver.cpp:143-149 | a 4096-byte zeroed buffer at index 0, not opened, no listeners |
| `SerialDriver.Driver.Open` | sw/Drivers/source/QtSerialDriver.cpp:150-184 | the port is configured only when all four values are keys of the translation maps; true iff that holds and the port opens; then the thread runs |
| `SerialDriver.Driver.Close` | sw/Drivers/source/QtSerialDriver.cpp:186-197 | afterwards the driver is not opened; nothing else changes |
| `SerialDriver.Driver.ReceiveStep` | sw/Drivers/source/QtSerialDriver.cpp:198-236 | a read that would not fit behind the stored bytes is reported as overflow and changes nothing; otherwise a positive read emits every '\\n'-terminated frame of the pending bytes in order and keeps the unterminated rest; a read of 0 or -1 changes nothing |
| `SerialDriver.Driver.AddListener` | sw/Drivers/source/QtSerialDriver.cpp:237-241 | the listener is appended |
| `SerialDriver.Driver.RemoveListener` | sw/Drivers/source/QtSerialDriver.cpp:242-250 | only the first occurrence is removed |
| `SerialDriver.Driver.NotifyListeners` | sw/Drivers/source/QtSerialDriver.cpp:251-261 | every non-null listener receives the notification, in registration order |
| `SerialDriver.Write` | sw/Drivers/source/QtSerialDriver.cpp:262-265 | true iff the count QSerialPort reports equals size; when everything is accepted, iff size is the data length |
| `DriversProxy.SerialEventMap` | sw/MainApplication/public/DriversProxy.hpp:123-126 | DATA_RECEIVED iff the serial event is DATA_RECV |
| `DriversProxy.ClientEventMap` | sw/MainApplication/public/DriversProxy.hpp:127-130 | DATA_RECEIVED iff the client event is SERVER_DATA_RECV |
| `DriversProxy.ProcessEventMap` | sw/MainApplication/public/DriversProxy.hpp:131-142 | ENDPOINT_DISCONNECTED iff the process event is PROCESS_STOPPED |
| `DriversProxy.Forward` | sw/MainApplication/public/DriversProxy.hpp:125-140 | exactly one listener call iff there is a listener, with data and size unchanged |
| `DriversProxy.Proxy.constructor` | sw/MainApplication/public/DriversProxy.hpp:29-65 | exactly one driver, the one the constructor was chosen for; not started |
| `DriversProxy.Proxy.Start` | sw/MainApplication/public/DriversProxy.hpp:66-80 | serial opens iff its settings are in the translation maps and the port opens; socket connects unless already connected; afterwards started iff it was or the start succeeded |
| `DriversProxy.Proxy.Stop` | sw/MainApplication/public/DriversProxy.hpp:81-95 | afterwards the proxy is not started |
| `DriversProxy.Proxy.Write` | sw/MainApplication/public/DriversProxy.hpp:111-121 | the serial driver gets the data as is; the socket client refuses payloads over 4096 and otherwise runs the send loop as written over the newline-delimiter buffer: a prefix goes out, with true whenever all of it did |
| `PortSettings.PortTypeName` | testing/TestStubs/source/PortSettingDialog.cpp:26-31 | a valid port type's name is in the name table |
| `PortSettings.PortTypeFromName` | testing/TestStubs/source/PortSettingDialog.cpp:32-42 | a real port type iff the name is in the table, PORT_TYPE_MAX otherwise |
| `PortSettings.PortTypeNameRoundTrip` | testing/TestStubs/source/PortSettingDialog.cpp:26-42 | fromName inverts toName on every valid type and toName inverts fromName on every known name |
| `PortSettings.SerialShortString` | sw/Dialogs/public/PortSettingDialog.h:98-116 | a serial port's short string is "name/device/SER/" followed by the baud rate's name, which reads back as the baud rate |
| `PortSettings.EthernetShortString` | sw/Dialogs/public/PortSettingDialog.h:98-116 | any other port's short string is "name/ETH/ip:" followed by the decimal port, which reads back as the port |
| `PortSettings.Equal` | sw/Dialogs/public/PortSettingDialog.h:117-126 | equal iff every field except port_id is equal |
| `PortSettings.NotEqual` | sw/Dialogs/public/PortSettingDialog.h:127-130 | exactly the negation of operator== |
| `PortSettings.EqualIsEquivalence` | sw/Dialogs/public/PortSettingDialog.h:117-126 | operator== is reflexive, symmetric and transitive |
| `PortSettingDialog.StringTo` | sw/MainApplication/source/PortSettingDialog.cpp:167-214 | the position of the name in its table, or X_MAX exactly when it is absent |
| `PortSettingDialog.StringToRoundTrip` | sw/MainApplication/source/PortSettingDialog.cpp:9-24 | every valid value's name is looked up as that value |
| `PortSettingDialog.RemoveRowsTakesWidgets` | sw/MainApplication/source/PortSettingDialog.cpp:146-153 | removing the rows takes exactly the tracked widgets out of the form, as multisets |
| `PortSettingDialog.Dialog.constructor` | sw/MainApplication/source/PortSettingDialog.cpp:27-32 | an empty form with no tracked widgets |
| `PortSettingDialog.Dialog.ClearDialog` | sw/MainApplication/source/PortSettingDialog.cpp:146-153 | every tracked widget's row is removed and the tracked list is emptied |
| `Port.DefaultName` | sw/MainApplication/source/Port.cpp:43 | "PORT" followed by the id, longer than the prefix |
| `Port.DefaultNameReadBack` | sw/MainApplication/source/Port.cpp:43 | the default name starts with "PORT" and the rest reads back as the port id |
| `Port.Named` | sw/MainApplication/source/Port.cpp:200-206 | the name is never empty afterwards; an empty name is replaced and every other field is kept |
| `Port.BackendFor` | sw/MainApplication/source/Port.cpp:207-222 | a serial proxy with the serial settings iff the type is SERIAL, otherwise a socket proxy with the address and port |
| `Port.PersistenceKeysDistinct` | sw/MainApplication/source/Port.cpp:414-426 | no key is written twice |
| `Port.ItemKeys` | sw/MainApplication/source/Port.cpp:414-426 | thirteen items carrying the keys in writing order |
| `Port.SavedLookup` | sw/MainApplication/source/Port.cpp:374-426 | each saved item is what the lookup of its key finds |
| `Port.SerialSaved` | sw/MainApplication/source/Port.cpp:418-423 | each item of the serial block is what the lookup of its key finds |
| `Port.NameFieldReadBack` | sw/MainApplication/source/Port.cpp:390-403 | a serial enum saved by name is read back as itself by fromName |
| `Port.EndpointNumbersReadBack` | sw/MainApplication/source/Port.cpp:387-416 | the TCP port and the port id are read back as saved |
| `Port.ModeReadBack` | sw/MainApplication/source/Port.cpp:395-423 | the data mode is read back as saved |
| `Port.ColoursReadBack` | sw/MainApplication/source/Port.cpp:396-425 | both colours are read back as saved |
| `Port.BaudReadBack` | sw/MainApplication/source/Port.cpp:390-418 | the baud rate is read back by name as saved |
| `Port.DataBitsReadBack` | sw/MainApplication/source/Port.cpp:391-419 | the data bits are read back by name as saved |
| `Port.ParityStopReadBack` | sw/MainApplication/source/Port.cpp:392-421 | parity and stop bits are read back by name as saved |
| `Port.TypeReadBack` | sw/MainApplication/source/Port.cpp:398-426 | the port type is read back by name as saved |
| `Port.EndpointTextsReadBack` | sw/MainApplication/source/Port.cpp:386-417 | the address and the port name are read back as saved |
| `Port.DeviceReadBack` | sw/MainApplication/source/Port.cpp:394-422 | the device is read back as saved |
| `Port.PersistenceRoundTrip` | sw/MainApplication/source/Port.cpp:374-427 | restoring the items saved from any persistable settings gives exactly those settings, whatever the settings were before |
| `Port.Port.constructor` | sw/MainApplication/source/Port.cpp:16-49 | default settings with the id and "PORT<id>", a stopped proxy, a disconnected button in the GUI's current colours and one DISCONNECTED report |
| `Port.Port.SetState` | sw/MainApplication/source/Port.cpp:228-238 | the new state, with the button showing the name in that state's colours, the GUI's current ones when disconnected; nothing else changes |
| `Port.Port.RefreshUi` | sw/MainApplication/source/Port.cpp:100-103 | the button repainted for the unchanged state, in the GUI's current colours when disconnected; nothing else changes |
| `Port.Port.HandleNewSettings` | sw/MainApplication/source/Port.cpp:200-227 | the settings replaced (empty name defaulted), a new stopped proxy of the matching type, the button repainted for its state |
| `Port.Port.SetSettings` | sw/MainApplication/source/Port.cpp:104-113 | applied iff the port is disconnected; otherwise nothing changes |
| `Port.Port.TryConnect` | sw/MainApplication/source/Port.cpp:289-307 | the proxy restarted; on success the retry timer stops, the port is CONNECTED, reports it and starts the throughput timer; on failure nothing else changes |
| `Port.Port.ScheduleConnectionTrial` | sw/MainApplication/source/Port.cpp:193-199 | the retry timer re-armed with the default period, the port CONNECTING and reported once |
| `Port.Port.OnButtonClicked` | sw/MainApplication/source/Port.cpp:252-325 | a started proxy is stopped and the port disconnected; a connecting port stops retrying; otherwise a connection is tried, and a failure shows an error for serial ports and starts retrying for others |
| `Port.Port.OnEvent` | sw/MainApplication/source/Port.cpp:122-147 | a lost endpoint makes the port CONNECTING and it reconnects or retries; data is reported as NEW_DATA unchanged |
| `Port.Port.OnTimeout` | sw/MainApplication/source/Port.cpp:148-183 | the retry timer reconnects or re-arms; the throughput timer restarts and shows the reported text while open, and clears the text otherwise; other ids change nothing |
| `Port.Port.OnButtonEvent` | sw/MainApplication/source/Port.cpp:63-78 | only this port's button is handled: a click connects or disconnects as onButtonClicked does, a context menu request edits the settings and leaves the button state |
| `Port.Port.Write` | sw/MainApplication/source/Port.cpp:92-99 | the proxy's write: serial ports report whether the driver took the whole buffer, socket ports send the header and data as the send loop does |
| `Port.Port.OnContextMenu` | sw/MainApplication/source/Port.cpp:239-251 | the dialog's settings are applied only when it returned true |
| `Port.Port.OnPersistenceWrite` | sw/MainApplication/source/Port.cpp:408-427 | the thirteen items appended to the buffer, in order |
| `Port.Port.OnPersistenceRead` | sw/MainApplication/source/Port.cpp:374-407 | the restored settings go through handleNewSettings |
| `Port.WriteEndpoint` | sw/MainApplication/source/Port.cpp:414-417 | the address, TCP port, id and name items appended |
| `Port.WriteSerial` | sw/MainApplication/source/Port.cpp:418-423 | the six serial items appended |
| `Port.WriteLook` | sw/MainApplication/source/Port.cpp:424-426 | the two colours and the port type appended |
| `PortHandler.Snprintf` | sw/MainApplication/source/PortHandler.cpp:90 | at most n - 1 characters, a prefix of the formatted text, and all of it when it fits |
| `PortHandler.LabelStyleFitsFor24Bits` | sw/MainApplication/source/PortHandler.cpp:89-90 | for every 24-bit colour the stylesheet is 99 characters and snprintf's 100 limit leaves it whole |
| `PortHandler.LabelStyleCutAbove24Bits` | sw/MainApplication/source/PortHandler.cpp:89-90 | a colour above 24 bits prints more than six digits and the stylesheet as written is cut to 99 characters |
| `PortHandler.LabelStyleWhole` | sw/MainApplication/source/PortHandler.cpp:88-90 | with the 200-character limit the buffer allows, the stylesheet is whole for every 32-bit colour (at most 101 characters) |
| `PortHandler.RgbColoursCut` | sw/MainApplication/source/PortHandler.cpp:88-90 | a colour with alpha 0xFF, as QColor::rgb() gives, prints 101 characters and the as-written label style loses its final "y;" |
| `PortHandler.NoticesFor` | sw/MainApplication/source/PortHandler.cpp:47-50 | one listener call with the port name, trace colour, event and the last client event's data, and none without a listener |
| `PortHandler.Handler.constructor` | sw/MainApplication/source/PortHandler.cpp:13-37 | default settings, the retry timer created with the default period, a DISCONNECTED button and report |
| `PortHandler.Handler.NotifyListeners` | sw/MainApplication/source/PortHandler.cpp:47-50 | the listener call appended; nothing else changes |
| `PortHandler.Handler.SetButtonState` | sw/MainApplication/source/PortHandler.cpp:176-188 | a new state is stored and painted once; setting the current state paints nothing |
| `PortHandler.Handler.OnClientEvent` | sw/MainApplication/source/PortHandler.cpp:51-56 | the client event is kept for the GUI thread |
| `PortHandler.Handler.TryConnectToSocket` | sw/MainApplication/source/PortHandler.cpp:157-175 | success stops the retry timer and reports CONNECTED; failure arms the timer with the retry period and reports CONNECTING |
| `PortHandler.Handler.OnPortEvent` | sw/MainApplication/source/PortHandler.cpp:57-74 | a server disconnection disconnects and reports DISCONNECTED; data is reported as NEW_DATA |
| `PortHandler.Handler.OnTimeout` | sw/MainApplication/source/PortHandler.cpp:75-83 | only the handler's own timer retries the connection; other ids change nothing |
| `PortHandler.Handler.HandleNewSettings` | sw/MainApplication/source/PortHandler.cpp:84-98 | the settings replaced and the label showing their short text with the stylesheet as written: a prefix of the whole stylesheet, whole for 24-bit trace colours and cut to 99 characters above |
| `PortHandler.Handler.OnContextMenu` | sw/MainApplication/source/PortHandler.cpp:99-120 | accepted settings are applied; rejected ones show an error naming them; a cancelled dialog changes nothing |
| `PortHandler.Handler.HandleButtonClickEthernet` | sw/MainApplication/source/PortHandler.cpp:136-156 | a connected socket is disconnected; a connecting port stops retrying; otherwise a connection is attempted |
| `PortHandler.Handler.OnButtonClicked` | sw/MainApplication/source/PortHandler.cpp:121-135 | ETHERNET clicks are handled; a SERIAL click changes nothing |
| `PortHandler.Handler.Destroy` | sw/MainApplication/source/PortHandler.cpp:38-46 | the timer removed, the socket disconnected, and DISCONNECTED shown and reported |
| `MainApplication.LeadingZeros` | sw/MainApplication/source/MainApplication.cpp:174-177 | zero padding of a "%.2u" field keeps the value of its digits |
| `MainApplication.Padded` | sw/MainApplication/source/MainApplication.cpp:174-177 | "%.<w>u" gives at least w decimal digits whose value is the number, and no padding when it is wide enough |
| `MainApplication.MonthFieldOf` | sw/MainApplication/source/MainApplication.cpp:175-176 | the two characters after the day in the stamp are the month printed with "%.2u" |
| `MainApplication.JanuaryStampedAsMonthZero` | sw/MainApplication/source/MainApplication.cpp:175-176 | as written the stamp of a January time shows month "00" |
| `MainApplication.TerminalLineMonth` | sw/MainApplication/source/MainApplication.cpp:169-176 | the terminal line as written carries tm_mon itself, two digits, in the month field after the port name and the day of the month |
| `MainApplication.StampMonthIsCalendarMonth` | sw/MainApplication/source/MainApplication.cpp:175-176 | with tm_mon + 1 the month field reads back as the calendar month, 1 to 12 |
| `MainApplication.LogFileMonthsAsWritten` | sw/MainApplication/source/MainApplication.cpp:443-454 | as written a December log file name carries "11" and a January one "00" |
| `MainApplication.LogFileMonths` | sw/MainApplication/source/MainApplication.cpp:443-454 | with the calendar month December gives "12" and January "01" |
| `MainApplication.CString` | sw/MainApplication/source/MainApplication.cpp:175-177 | "%s" of c_str(): the longest NUL-free prefix of the text |
| `MainApplication.Displayed` | sw/MainApplication/source/MainApplication.cpp:182-186 | one trailing newline removed, and nothing else |
| `MainApplication.MarkerNumber` | sw/MainApplication/source/MainApplication.cpp:211-218 | the marker text is "MARKER", the decimal counter and a newline, and the counter reads back from it |
| `MainApplication.MarkersDiffer` | sw/MainApplication/source/MainApplication.cpp:211-218 | two different counter values give different marker texts |
| `MainApplication.WithEnding` | sw/MainApplication/source/MainApplication.cpp:302-310 | the command followed by CR LF or LF for the two escaped endings offered, and by nothing for any other ending |
| `MainApplication.OfferedEndings` | sw/MainApplication/source/MainApplication.cpp:302-310 | of the three endings offered the first appends CR LF, the second LF and "EMPTY" nothing |
| `MainApplication.ShownIsFull` | sw/MainApplication/source/MainApplication.cpp:180-186 | each view shows the logged line without at most one trailing newline |
| `MainApplication.ShowBounds` | sw/MainApplication/source/MainApplication.cpp:169-210 | the terminal view stays within maxTerminalTraces and ends with the new line, the file log gains it, the trace view gains one copy per matching filter |
| `MainApplication.NoMatchNoTrace` | sw/MainApplication/source/MainApplication.cpp:194-209 | without a matching filter the trace view only loses lines, when it was full |
| `MainApplication.IdOfIsFirst` | sw/MainApplication/source/MainApplication.cpp:431-442 | the id found names the port and no smaller id does; 0 when no id names it |
| `MainApplication.ConnectedPortFound` | sw/MainApplication/source/MainApplication.cpp:156-161 | after CONNECTED a name no other port has is found under the id that connected |
| `MainApplication.DisconnectedPortForgotten` | sw/MainApplication/source/MainApplication.cpp:162-167 | after DISCONNECTED a non-empty name no other port has is no longer found |
| `MainApplication.AddedNewest` | sw/MainApplication/source/MainApplication.cpp:417-430 | the added command is the newest, the older ones are the newest ones from before, and fewer than MAX_COMMANDS_HISTORY_ITEMS remain |
| `MainApplication.AddedWithLimitOne` | sw/MainApplication/source/MainApplication.cpp:424-427 | with a limit of one the loop erases the command just added |
| `MainApplication.SendStepShows` | sw/MainApplication/source/MainApplication.cpp:312-331 | a write to the current port prints the sent data on success and the error line on failure |
| `MainApplication.SendToNoPort` | sw/MainApplication/source/MainApplication.cpp:312-333 | with no port of the current name, sending changes nothing |
| `MainApplication.SendWrites` | sw/MainApplication/source/MainApplication.cpp:312-333 | every port named like the current one is written the command with the ending, once each |
| `MainApplication.SendRecordsCommand` | sw/MainApplication/source/MainApplication.cpp:417-430 | when the last matching port took the write, a non-empty command is that port's newest history entry and is shown |
| `MainApplication.SettingsRoundTrip` | sw/MainApplication/source/MainApplication.cpp:358-403 | the saved settings are read back from the start of any block that begins with them |
| `MainApplication.ImageRoundTrip` | sw/MainApplication/source/MainApplication.cpp:358-416 | onPersistenceRead reads back the settings and the history entries onPersistenceWrite saved, in ascending id order |
| `MainApplication.SaveThenRestore` | sw/MainApplication/source/MainApplication.cpp:358-396 | saving and restoring puts each saved port id up to PORT_HANDLERS_COUNT over the previous history and drops the others |
| `MainApplication.WriteSettings` | sw/MainApplication/source/MainApplication.cpp:399-403 | the five serialize calls append the encoded settings |
| `MainApplication.ReadSettingsAt` | sw/MainApplication/source/MainApplication.cpp:365-369 | the five deserialize calls read the settings and the offset after them |
| `MainApplication.ReadImageAt` | sw/MainApplication/source/MainApplication.cpp:365-385 | the settings then the history entries, as the image reader defines |
| `MainApplication.SelectEnding` | sw/MainApplication/source/MainApplication.cpp:394 | an offered ending becomes current; one not offered leaves the selection |
| `MainApplication.App.constructor` | sw/MainApplication/source/MainApplication.cpp:48-133 | both scrolls on, the three endings offered with the first current, the logging path set to the executable directory, nothing shown |
| `MainApplication.App.PortNameToId` | sw/MainApplication/source/MainApplication.cpp:431-442 | the first id in ascending order whose name matches, else 0 |
| `MainApplication.App.AddToCommandHistory` | sw/MainApplication/source/MainApplication.cpp:417-430 | empty text is ignored; otherwise appended, the oldest dropped while MAX or more remain, and the history shown |
| `MainApplication.App.AddToTerminal` | sw/MainApplication/source/MainApplication.cpp:169-210 | the line stamped as written (month counted from 0) logged, shown in the terminal view and once per matching filter in the trace view, a full view cleared first |
| `MainApplication.App.OnMarkerButtonClicked` | sw/MainApplication/source/MainApplication.cpp:211-218 | the counter goes up first and its marker line is printed in the marker colour |
| `MainApplication.App.OnScrollButtonClicked` | sw/MainApplication/source/MainApplication.cpp:252-256 | the terminal scrolling flag toggles |
| `MainApplication.App.OnTraceScrollButtonClicked` | sw/MainApplication/source/MainApplication.cpp:257-261 | the trace scrolling flag toggles |
| `MainApplication.App.OnTraceClearButtonClicked` | sw/MainApplication/source/MainApplication.cpp:262-266 | the trace view is emptied |
| `MainApplication.App.OnClearButtonClicked` | sw/MainApplication/source/MainApplication.cpp:278-282 | the terminal view is emptied |
| `MainApplication.App.OnPortHandlerEvent` | sw/MainApplication/source/MainApplication.cpp:151-168 | data is printed in the port's colours; CONNECTED maps id to name and registers the port opened; DISCONNECTED registers it closed and maps the id to "" |
| `MainApplication.App.OnCurrentPortSelectionChanged` | sw/MainApplication/source/MainApplication.cpp:283-291 | the selected port's history (created empty) is shown and the port becomes current |
| `MainApplication.App.SendToPort` | sw/MainApplication/source/MainApplication.cpp:297-334 | true iff some port of the current name took the write; every such port is written and the outputs follow the send loop |
| `MainApplication.App.SendOne` | sw/MainApplication/source/MainApplication.cpp:314-332 | true iff the handler is the current port and its write succeeded; the outputs follow one loop step |
| `MainApplication.App.OnSendButtonClicked` | sw/MainApplication/source/MainApplication.cpp:335-339 | the typed command is sent and the result ignored |
| `MainApplication.App.OnLoggingButtonClicked` | sw/MainApplication/source/MainApplication.cpp:219-251 | logging starts in a file named after the time as written (month counted from 0), green when it opens and an error otherwise; pressed while logging it stops |
| `MainApplication.App.OnPersistenceWrite` | sw/MainApplication/source/MainApplication.cpp:397-416 | the version, logging path, both scroll flags, line ending and history appended |
| `MainApplication.App.OnPersistenceRead` | sw/MainApplication/source/MainApplication.cpp:358-396 | the path and flags restored, the saved ending selected, and saved histories up to PORT_HANDLERS_COUNT put back |
| `MainApplication.App.Restored` | sw/MainApplication/source/MainApplication.cpp:366-396 | what onPersistenceRead does with the image it read |
| `MainApplication.App.RestoreHistory` | sw/MainApplication/source/MainApplication.cpp:372-395 | each saved port id up to PORT_HANDLERS_COUNT gets its commands, in order |
| `MainApplication.App.OnLoggingButtonContextMenuRequested` | sw/MainApplication/source/MainApplication.cpp:267-277 | a chosen directory becomes the logging path; a cancelled dialog changes nothing |
| `CommandHistory.KeepNewest` | sw/MainApplication/source/MainApplication.cpp:424-427 | a suffix of the history with fewer than max commands: all of it when it was shorter, exactly max - 1 otherwise |
| `CommandHistory.TrimHistory` | sw/MainApplication/source/MainApplication.cpp:424-427 | the erase-front loop leaves the newest commands as KeepNewest defines |
| `CommandHistory.AddKeepsNewest` | sw/MainApplication/source/MainApplication.cpp:421-427 | the added command is the newest and the ones before it are the newest of the old history |
| `CommandHistory.KeysFrom` | sw/MainApplication/source/MainApplication.cpp:405-406 | ids of the map in strictly ascending order, the iteration order of std::map |
| `CommandHistory.SortedKeysCount` | sw/MainApplication/source/MainApplication.cpp:404-406 | the ascending walk visits as many ids as the map has entries |
| `CommandHistory.ReadManyRoundTrip` | sw/MainApplication/source/MainApplication.cpp:380-412 | records written one after the other read back as the same list, wherever they sit |
| `CommandHistory.CountedRoundTrip` | sw/MainApplication/source/MainApplication.cpp:371-404 | a one-byte count below 256 and the records after it read back as the same list |
| `CommandHistory.EntriesOf` | sw/MainApplication/source/MainApplication.cpp:405-413 | one entry per id, with that id's commands |
| `CommandHistory.WriteCommands` | sw/MainApplication/source/MainApplication.cpp:409-412 | the inner loop appends every command as a length-prefixed string |
| `CommandHistory.WriteEntry` | sw/MainApplication/source/MainApplication.cpp:407-412 | the id, the 32-bit command count and the commands appended |
| `CommandHistory.WriteEntries` | sw/MainApplication/source/MainApplication.cpp:405-413 | the outer loop appends each entry in turn |
| `CommandHistory.WriteHistory` | sw/MainApplication/source/MainApplication.cpp:404-413 | the (uint8_t) count then every entry in ascending id order appended |
| `CommandHistory.ReadStringAt` | sw/MainApplication/source/MainApplication.cpp:382 | one string deserialize and the offset after it |
| `CommandHistory.ReadCommandsAt` | sw/MainApplication/source/MainApplication.cpp:379-384 | the inner loop reads n strings in order |
| `CommandHistory.ReadEntryAt` | sw/MainApplication/source/MainApplication.cpp:377-384 | the id, the count and that many commands |
| `CommandHistory.ReadEntriesAt` | sw/MainApplication/source/MainApplication.cpp:372-390 | the outer loop reads n entries in the order written |
| `CommandHistory.ReadHistoryAt` | sw/MainApplication/source/MainApplication.cpp:371-390 | the count byte then that many entries |
| `CommandHistory.EntryReadBack` | sw/MainApplication/source/MainApplication.cpp:377-412 | one written entry reads back as itself wherever it sits |
| `CommandHistory.HistoryImage` | sw/MainApplication/source/MainApplication.cpp:404-413 | the image is the entry count byte followed by the entries in ascending id order |
| `CommandHistory.HistoryRoundTrip` | sw/MainApplication/source/MainApplication.cpp:371-413 | the stored image reads back as every entry in ascending id order, and reading stops right after it |
| `CommandHistory.RestorableFrom` | sw/MainApplication/source/MainApplication.cpp:386-389 | exactly the ids of the map from k up to PORT_HANDLERS_COUNT |
| `CommandHistory.RestoreFrom` | sw/MainApplication/source/MainApplication.cpp:372-390 | restoring the entries from k on puts the restorable ones over the old history |
| `CommandHistory.RestoreSaved` | sw/MainApplication/source/MainApplication.cpp:372-390 | restoring what was written gives the old history with the saved commands of every id up to PORT_HANDLERS_COUNT put over it, other ids dropped |
| `CommandHistory.RestoreSavedPorts` | sw/MainApplication/source/MainApplication.cpp:372-390 | a history whose ids are all port ids comes back whole |
| `TraceFilter.ButtonColors` | sw/MainApplication/source/TraceFilter.cpp:180-197 | green on black while active, otherwise the GUI background and text colours read when the button is painted |
| `TraceFilter.PersistenceName` | sw/MainApplication/source/TraceFilter.cpp:14 | "TRACE_FILTER" followed by digits that read back as the filter id |
| `TraceFilter.SavedKeys` | sw/MainApplication/source/TraceFilter.cpp:117-127 | the six items carry the six keys in writing order, none twice |
| `TraceFilter.BoolReadBack` | sw/MainApplication/source/TraceFilter.cpp:101-125 | a boolean written as 0 or 1 reads back as itself |
| `TraceFilter.SavedLookup` | sw/MainApplication/source/TraceFilter.cpp:117-127 | each saved item is the one found under its key |
| `TraceFilter.SavedFlagsBack` | sw/MainApplication/source/TraceFilter.cpp:101-125 | the active and user-defined flags read back as saved |
| `TraceFilter.SavedSettingsBack` | sw/MainApplication/source/TraceFilter.cpp:102-126 | the expression, both colours and the id read back as saved |
| `TraceFilter.SavedRoundTrip` | sw/MainApplication/source/TraceFilter.cpp:95-127 | restoring the saved items gives the saved state back, whatever the filter held before |
| `TraceFilter.RestoreNothing` | sw/MainApplication/source/TraceFilter.cpp:95-116 | with no items the settings and the user-defined flag stay and the filter comes back inactive |
| `TraceFilter.Filter.constructor` | sw/MainApplication/source/TraceFilter.cpp:8-31 | the palette's colours, an empty expression, inactive and not user-defined, the line edit enabled in those colours, the button in the GUI's current colours |
| `TraceFilter.Filter.TryMatch` | sw/MainApplication/source/TraceFilter.cpp:51-66 | the settings iff the filter is active and the expression matches the text |
| `TraceFilter.Filter.HandleNewSettings` | sw/MainApplication/source/TraceFilter.cpp:171-179 | the settings replaced and the line edit of the id updated; the expression rebuilt when std::regex accepts it, otherwise it throws with the old expression kept |
| `TraceFilter.Filter.SetSettings` | sw/MainApplication/source/TraceFilter.cpp:77-86 | applied iff the filter is inactive, throwing exactly when an applied expression is refused; otherwise nothing changes |
| `TraceFilter.Filter.OnButtonClicked` | sw/MainApplication/source/TraceFilter.cpp:131-149 | an inactive filter takes the line edit's text, locks it and becomes active, or throws when std::regex refuses the text, leaving it inactive with only the stored expression changed; an active one unlocks it and becomes inactive; the button is repainted, in the GUI's current colours when inactive |
| `TraceFilter.Filter.OnContextMenuRequested` | sw/MainApplication/source/TraceFilter.cpp:150-170 | refused while active; otherwise accepted dialog settings replace the filter's and become user-defined, throwing exactly when their expression is refused |
| `TraceFilter.Filter.OnButtonEvent` | sw/MainApplication/source/TraceFilter.cpp:37-50 | only this filter's button is handled: a click toggles and repaints unless the expression is refused, a context menu request edits and leaves the button; it throws exactly when the handler does |
| `TraceFilter.Filter.RefreshUi` | sw/MainApplication/source/TraceFilter.cpp:67-76 | the button repainted for the state in the GUI's current colours; unless user-defined the filter's colours follow the palette |
| `TraceFilter.Filter.OnPersistenceWrite` | sw/MainApplication/source/TraceFilter.cpp:117-130 | the six items appended, the text taken from the line edit |
| `TraceFilter.Filter.OnPersistenceRead` | sw/MainApplication/source/TraceFilter.cpp:95-116 | the restored settings applied and the restored active flag shown on the button (in the GUI's current colours when inactive) and the line edit; a refused restored expression throws with the settings stored and the flag, button and expression unchanged |
| `TraceFilter.Filter.ShowRestored` | sw/MainApplication/source/TraceFilter.cpp:107-114 | the restored state applied and shown, the button painted for the restored flag; a refused expression throws after the settings and line edit are updated, with the flag, button and expression unchanged |
| `TraceFilter.ReadSaved` | sw/MainApplication/source/TraceFilter.cpp:98-106 | the six readItem calls give the restored state |
| `UserButton.PersistenceName` | sw/MainApplication/source/UserButton.cpp:24 | "BUTTON" followed by digits that read back as the button id |
| `UserButton.SavedRoundTrip` | sw/MainApplication/source/UserButton.cpp:88-106 | the label and commands saved after other owners' items are restored as saved |
| `UserButton.RestoreKeeps` | sw/MainApplication/source/UserButton.cpp:88-98 | items without the button's keys leave its settings as they are |
| `UserButton.Button.constructor` | sw/MainApplication/source/UserButton.cpp:13-32 | the button found by object name (first match), subscribed for clicks and context menus under the handler, made checkable; other buttons keep their subscriptions |
| `UserButton.Button.Destroy` | sw/MainApplication/source/UserButton.cpp:33-40 | both subscriptions withdrawn; other buttons keep theirs |
| `UserButton.Button.OnButtonEvent` | sw/MainApplication/source/UserButton.cpp:41-54 | events of other buttons ignored; a click starts the execution, a context menu request opens the dialog |
| `UserButton.Button.OnUserButtonClicked` | sw/MainApplication/source/UserButton.cpp:77-83 | the button checked and disabled, then the execution started |
| `UserButton.Button.OnCommandExecutionEvent` | sw/MainApplication/source/UserButton.cpp:107-114 | whatever the result, the button is unchecked and enabled again |
| `UserButton.Button.OnUserButtonContextMenuRequested` | sw/MainApplication/source/UserButton.cpp:62-76 | the dialog's settings are applied only when it was accepted |
| `UserButton.Button.HandleNewSettings` | sw/MainApplication/source/UserButton.cpp:55-61 | the settings stored, the executor parses the commands unless it is running, and the label shown |
| `UserButton.Button.OnPersistenceRead` | sw/MainApplication/source/UserButton.cpp:88-98 | each saved key replaces its field and the result goes through handleNewSettings |
| `UserButton.Button.OnPersistenceWrite` | sw/MainApplication/source/UserButton.cpp:99-106 | the label then the commands appended |
| `UserButtonsTab.DefaultTabName` | sw/MainApplication/source/UserButtonsTab.cpp:16 | "TAB" followed by digits that read back as the tab id |
| `UserButtonsTab.ButtonName` | sw/MainApplication/source/UserButtonsTab.cpp:26 | "BUTTON" followed by digits that read back as the button's place among all buttons |
| `UserButtonsTab.EarlierTabFirst` | sw/MainApplication/source/UserButtonsTab.cpp:24-26 | every button of an earlier tab comes before every button of a later one |
| `UserButtonsTab.GlobalIndexDistinct` | sw/MainApplication/source/UserButtonsTab.cpp:24-26 | different tabs or indices below buttons_count give different places |
| `UserButtonsTab.ButtonNamesDistinct` | sw/MainApplication/source/UserButtonsTab.cpp:24-26 | the buttons of all tabs have distinct object names |
| `UserButtonsTab.PersistenceNamesCollide` | sw/MainApplication/source/UserButtonsTab.cpp:26-29 | as written, button 0 of tab 0 and of tab 1 differ but register under the same persistence name |
| `UserButtonsTab.ButtonId` | sw/MainApplication/source/UserButtonsTab.cpp:26 | the intended id, whose persistence name is the button's object name |
| `UserButtonsTab.ButtonIdAsWritten` | sw/MainApplication/source/UserButtonsTab.cpp:26-29 | as written a button's id is its index within the tab |
| `UserButtonsTab.PersistenceNamesDistinct` | sw/MainApplication/source/UserButtonsTab.cpp:26 | with the intended id no two buttons of any tabs share a persistence name |
| `UserButtonsTab.TabNameRoundTrip` | sw/MainApplication/source/UserButtonsTab.cpp:46-57 | a name saved after other owners' items is restored as saved |
| `UserButtonsTab.NoSavedName` | sw/MainApplication/source/UserButtonsTab.cpp:46-52 | without a saved name the tab's name becomes empty, not the default |
| `UserButtonsTab.CreateButtons` | sw/MainApplication/source/UserButtonsTab.cpp:24-38 | button i is created with id i (its index within the tab) for the window button named after its place among all tabs, and subscribed under its own address; all keep their subscriptions |
| `UserButtonsTab.Tab.constructor` | sw/MainApplication/source/UserButtonsTab.cpp:8-39 | subscribed for name changes, buttons_count buttons with ids 0..buttons_count-1 placed and subscribed, the default name shown |
| `UserButtonsTab.Tab.Destroy` | sw/MainApplication/source/UserButtonsTab.cpp:40-45 | the name change subscription withdrawn |
| `UserButtonsTab.Tab.SetTabName` | sw/MainApplication/source/UserButtonsTab.cpp:69-75 | the name stored and shown |
| `UserButtonsTab.Tab.OnTabNameChangeRequest` | sw/MainApplication/source/UserButtonsTab.cpp:58-68 | only a name the dialog returned renames the tab |
| `UserButtonsTab.Tab.OnPersistenceRead` | sw/MainApplication/source/UserButtonsTab.cpp:46-52 | the saved name, or "", becomes the tab's name |
| `UserButtonsTab.Tab.OnPersistenceWrite` | sw/MainApplication/source/UserButtonsTab.cpp:53-57 | the name appended under "tabName" |
| `Listeners.FirstIndex` | sw/GUIController/source/GUIController.cpp:405-406 | std::find: the first index holding the value, or the length when none does |
| `GUIController.KeyIndex` | sw/GUIController/source/GUIController.cpp:125-126 | the first subscription for the button and event, or the length |
| `GUIController.WidgetIndex` | sw/GUIController/source/GUIController.cpp:405-406 | the index of the first button that is the widget, or the length |
| `GUIController.ListenerFor` | sw/GUIController/source/GUIController.cpp:122-136 | None exactly when no subscription is for the button and event |
| `GUIController.SubscribeRegisters` | sw/GUIController/source/GUIController.cpp:122-136 | subscribing keeps one subscription per button and event; the pair gets the new listener and every other pair keeps its own |
| `GUIController.UnsubscribeRemoves` | sw/GUIController/source/GUIController.cpp:137-149 | unsubscribing a pair's own listener removes it; any other listener leaves the registry unchanged; other pairs keep theirs |
| `GUIController.NotifiedIsSubscriber` | sw/GUIController/source/GUIController.cpp:408-418 | a button event reaches exactly the non-null listener subscribed for that pair, and nothing else |
| `GUIController.NotifiedAppend` | sw/GUIController/source/GUIController.cpp:408-418 | one more subscription adds at most its own listener at the end |
| `GUIController.ThemeSubscribeOnce` | sw/GUIController/source/GUIController.cpp:321-330 | the listener is added once, the list stays free of duplicates, and subscribing again changes nothing |
| `GUIController.ThemeUnsubscribeRemoves` | sw/GUIController/source/GUIController.cpp:331-340 | the listener and only it is removed, and no duplicate appears |
| `GUIController.NonNull` | sw/GUIController/source/GUIController.cpp:668-672 | exactly the non-null theme listeners, in order |
| `GUIController.ThemeToName` | sw/GUIController/source/GUIController.cpp:290-294 | a valid theme's name is in the name table |
| `GUIController.NameToTheme` | sw/GUIController/source/GUIController.cpp:295-304 | APPLICATION_THEMES_MAX iff the name is not in the table |
| `GUIController.ThemeNamesInverse` | sw/GUIController/source/GUIController.cpp:290-304 | themeToName and nameToTheme invert each other on valid themes and known names |
| `GUIController.NextPort` | sw/GUIController/source/GUIController.cpp:463-482 | the selection stays valid; with two entries or more some entry is selected |
| `GUIController.SwitchCycles` | sw/GUIController/source/GUIController.cpp:463-482 | from a selected entry the switches visit the following entries, wrap to the first, and after count switches return to it |
| `GUIController.SwitchLast` | sw/GUIController/source/GUIController.cpp:463-482 | n + 1 switches are one switch after n |
| `GUIController.Reversed` | sw/GUIController/source/GUIController.cpp:587-597 | the elements in reverse order |
| `GUIController.ReversedTwice` | sw/GUIController/source/GUIController.cpp:587-597 | reversing twice gives the sequence back |
| `GUIController.FirstNamed` | sw/GUIController/source/GUIController.cpp:106-121 | UINT32_MAX iff no widget has the name; otherwise the first index with it |
| `GUIController.Deliver` | sw/GUIController/source/GUIController.cpp:408-450 | the loop notifies each non-null listener subscribed for the pair, in order |
| `GUIController.NotifyThemeListeners` | sw/GUIController/source/GUIController.cpp:668-672 | the loop tells every non-null theme listener, in order |
| `GUIController.InsertEachAtTop` | sw/GUIController/source/GUIController.cpp:590-595 | inserting each command at index 0 puts them in reverse order on top of the box |
| `GUIController.Controller.constructor` | sw/GUIController/source/GUIController.cpp:10-18 | no subscriptions, empty views with counters at zero |
| `GUIController.Controller.GetButtonID` | sw/GUIController/source/GUIController.cpp:106-121 | UINT32_MAX iff no button has the name; otherwise the first button with it |
| `GUIController.Controller.SubscribeForButtonEvent` | sw/GUIController/source/GUIController.cpp:122-136 | the registry after subscribing, with the pair answered by the new listener |
| `GUIController.Controller.UnsubscribeFromButtonEvent` | sw/GUIController/source/GUIController.cpp:137-149 | the registry after unsubscribing; the pair's own listener leaves it without one |
| `GUIController.Controller.ButtonOf` | sw/GUIController/source/GUIController.cpp:391-407 | the sender's shortcut button or the sender itself, when it is a button |
| `GUIController.Controller.Dispatch` | sw/GUIController/source/GUIController.cpp:385-452 | a sender that is no button notifies nobody; otherwise every non-null listener of that button and event, in order |
| `GUIController.Controller.AddToTerminalView` | sw/GUIController/source/GUIController.cpp:543-547 | the line appended and the uint32 counter incremented modulo 2^32 |
| `GUIController.Controller.AddToTraceView` | sw/GUIController/source/GUIController.cpp:548-561 | the line appended in its colours and the uint32 counter incremented modulo 2^32 |
| `GUIController.Controller.ClearTerminalView` | sw/GUIController/source/GUIController.cpp:531-536 | the view emptied and the counter reset |
| `GUIController.Controller.ClearTraceView` | sw/GUIController/source/GUIController.cpp:537-542 | the view emptied and the counter reset |
| `GUIController.Controller.OnPortSwitchRequest` | sw/GUIController/source/GUIController.cpp:463-482 | the selection moves on, wrapping at the end, with two entries or more |
| `GUIController.Controller.SetCommandsHistory` | sw/GUIController/source/GUIController.cpp:587-597 | the box holds the commands reversed and nothing is selected |
| `GUIController.Controller.SubscribeForThemeReloadEvent` | sw/GUIController/source/GUIController.cpp:321-330 | appended unless already subscribed |
| `GUIController.Controller.UnsubscribeFromThemeReloadEvent` | sw/GUIController/source/GUIController.cpp:331-340 | the listener is no longer subscribed |
| `GUIController.Controller.ReloadTheme` | sw/GUIController/source/GUIController.cpp:664-673 | the theme loaded, then every non-null theme listener told, in order |
| `LegacyGUIController.OneTag` | sw/MainApplication/source/GUIController.cpp:621-638 | a stylesheet with one tag splits into that tag alone |
| `LegacyGUIController.OneTagSheet` | sw/MainApplication/source/GUIController.cpp:621-638 | a stylesheet of one generated tag sets that tag's colour and leaves the other at 0 |
| `LegacyGUIController.BackgroundSheetHoldsOneColor` | sw/MainApplication/source/GUIController.cpp:621-629 | the background setter replaces the whole stylesheet: read back it holds the colour and 0 for the font colour, whatever was set before |
| `LegacyGUIController.FontSheetHoldsOneColor` | sw/MainApplication/source/GUIController.cpp:630-638 | the font setter likewise: the background colour reads back as 0 |
| `LegacyGUIController.Controller.constructor` | sw/MainApplication/source/GUIController.cpp:15-112 | the given theme, empty views with counters at zero, scrolling off, no subscriptions |
| `LegacyGUIController.Controller.GetButtonID` | sw/MainApplication/source/GUIController.cpp:117-131 | UINT32_MAX iff no button has the name; otherwise the first button with it |
| `LegacyGUIController.Controller.GetLabelID` | sw/MainApplication/source/GUIController.cpp:132-146 | UINT32_MAX iff no label has the name; otherwise the first label with it |
| `LegacyGUIController.Controller.GetTraceFilterID` | sw/MainApplication/source/GUIController.cpp:277-293 | UINT32_MAX iff no filter's button or line edit has the name; otherwise the first such filter |
| `LegacyGUIController.Controller.SubscribeForButtonEvent` | sw/MainApplication/source/GUIController.cpp:147-161 | the registry after subscribing, the pair answered by the new listener |
| `LegacyGUIController.Controller.UnsubscribeFromButtonEvent` | sw/MainApplication/source/GUIController.cpp:162-174 | the registry after unsubscribing; the pair's own listener leaves it without one |
| `LegacyGUIController.Controller.Dispatch` | sw/MainApplication/source/GUIController.cpp:404-437 | only a button's own signal is dispatched, to the non-null listeners of that button and event in order |
| `LegacyGUIController.Controller.AddToTerminalView` | sw/MainApplication/source/GUIController.cpp:524-538 | the line appended in its colours, the counter incremented modulo 2^32, and the view scrolls iff its scrolling is on |
| `LegacyGUIController.Controller.AddToTraceView` | sw/MainApplication/source/GUIController.cpp:539-553 | the same for the trace view and its own flag |
| `LegacyGUIController.Controller.SetTerminalScrollingEnabled` | sw/MainApplication/source/GUIController.cpp:554-558 | the terminal flag set |
| `LegacyGUIController.Controller.SetTraceScrollingEnabled` | sw/MainApplication/source/GUIController.cpp:559-563 | the trace flag set |
| `LegacyGUIController.Controller.ClearTerminalView` | sw/MainApplication/source/GUIController.cpp:512-517 | the view emptied and the counter reset |
| `LegacyGUIController.Controller.ClearTraceView` | sw/MainApplication/source/GUIController.cpp:518-523 | the view emptied and the counter reset |
| `LegacyGUIController.Controller.OnPortSwitchRequest` | sw/MainApplication/source/GUIController.cpp:448-463 | the selection moves on, wrapping at the end, with two entries or more |
| `LegacyGUIController.Controller.SetCommandsHistory` | sw/MainApplication/source/GUIController.cpp:579-587 | the box holds the commands with the last one first |
| `LegacyGUIController.Controller.AddCommandToHistory` | sw/MainApplication/source/GUIController.cpp:588-591 | the command inserted at the top |
| `LegacyGUIController.Controller.SetTraceFilterBackgroundColor` | sw/MainApplication/source/GUIController.cpp:621-629 | the filter's stylesheet becomes the background colour alone |
| `LegacyGUIController.Controller.SetTraceFilterFontColor` | sw/MainApplication/source/GUIController.cpp:630-638 | the filter's stylesheet becomes the font colour alone |
| `LegacyGUIController.Controller.SubscribeForThemeReloadEvent` | sw/MainApplication/source/GUIController.cpp:363-376 | appended unless already subscribed |
| `LegacyGUIController.Controller.UnsubscribeFromThemeReloadEvent` | sw/MainApplication/source/GUIController.cpp:377-387 | the listener is no longer subscribed |
| `LegacyGUIController.Controller.ReloadTheme` | sw/MainApplication/source/GUIController.cpp:653-662 | the theme loaded, then every non-null theme listener told, in order |
| `SerialDataGenerator.IsCommand` | tools/SerialDataGenerator.cpp:84-95 | an option iff longer than two characters and starting with "--" |
| `SerialDataGenerator.SplitOption` | tools/SerialDataGenerator.cpp:262-266 | the command and value are pieces without '=' |
| `SerialDataGenerator.SplitJoin` | tools/SerialDataGenerator.cpp:262-266 | "name=value", with or without a further "=rest", splits back into the name and the value |
| `SerialDataGenerator.SplitAlone` | tools/SerialDataGenerator.cpp:262-266 | an option without '=' has an empty value |
| `SerialDataGenerator.RejectedOptions` | tools/SerialDataGenerator.cpp:213-253 | an empty value, "--help" and unknown options are rejected and change nothing |
| `SerialDataGenerator.AcceptedKeepsGood` | tools/SerialDataGenerator.cpp:96-212 | an accepted option keeps a runnable configuration runnable: known enum names, a period in 1..10000, a size in 1..4096 or the payload's length |
| `SerialDataGenerator.NumberOptionRange` | tools/SerialDataGenerator.cpp:174-201 | a number outside 1..max is rejected, a negative one included; a value stoi cannot read throws |
| `SerialDataGenerator.ApplyNumber` | tools/SerialDataGenerator.cpp:174-201 | for a non-empty value the period or size option throws when stoi does, is rejected outside 1..max, and otherwise stores the value |
| `SerialDataGenerator.NonOptionAcceptedAsWritten` | tools/SerialDataGenerator.cpp:254-280 | as written a non-option after an accepted option leaves the result true, although the intended reading rejects it |
| `SerialDataGenerator.DeviceThenNonOption` | tools/SerialDataGenerator.cpp:254-280 | the concrete input "--device=x" then "y" is accepted as written and rejected as intended |
| `SerialDataGenerator.AsWrittenAgrees` | tools/SerialDataGenerator.cpp:254-280 | without a non-option argument the written and intended loops agree |
| `SerialDataGenerator.RunAccepted` | tools/SerialDataGenerator.cpp:254-280 | accepted arguments are all options, each accepted in turn, and a good configuration stays good |
| `SerialDataGenerator.RunOnlyOptions` | tools/SerialDataGenerator.cpp:254-280 | the intended loop accepts only when every argument is an option |
| `SerialDataGenerator.ProcessedOnlyOptions` | tools/SerialDataGenerator.cpp:254-280 | processCommands as intended accepts only a non-empty command line of options |
| `SerialDataGenerator.FinalisedPayload` | tools/SerialDataGenerator.cpp:312-318 | the payload sent ends with the newline and its length is the counted size; an empty payload becomes size '0' characters |
| `SerialDataGenerator.Generator.constructor` | tools/SerialDataGenerator.cpp:13-16 | the globals' initial values |
| `SerialDataGenerator.Generator.ParseDevice` | tools/SerialDataGenerator.cpp:96-105 | accepted iff the value is non-empty, and then it becomes the device |
| `SerialDataGenerator.Generator.ParseEnum` | tools/SerialDataGenerator.cpp:106-173 | an empty value is rejected; otherwise the field becomes fromName's result, and the option is accepted iff the name is known |
| `SerialDataGenerator.Generator.ParseNumber` | tools/SerialDataGenerator.cpp:174-201 | accepted iff stoi's value as a uint32 is within 1..10000 for the period or 1..4096 for the size, and then it is stored; a value stoi cannot read throws |
| `SerialDataGenerator.Generator.ParsePayload` | tools/SerialDataGenerator.cpp:202-212 | accepted iff the value is non-empty, and then it becomes the payload with its length as the size |
| `SerialDataGenerator.Generator.ParseCommand` | tools/SerialDataGenerator.cpp:213-253 | the outcome of the parser the command names; "--help" and unknown commands are rejected |
| `SerialDataGenerator.Generator.ProcessCommands` | tools/SerialDataGenerator.cpp:254-280 | the loop over the arguments gives processCommands' result and configuration as written: a non-option ends it with the previous option's result |
| `SerialDataGenerator.Generator.Start` | tools/SerialDataGenerator.cpp:306-318 | true iff processCommands as written accepts, and then the payload is finalised |
| `SerialDataGenerator.Generator.Finalise` | tools/SerialDataGenerator.cpp:312-318 | the payload made up when empty, then the newline, counted in the size |
| `TestFrameworkAPI.CommandByte` | testing/TestFramework/public/TestFrameworkAPI.h:9-14 | the three commands are the bytes 0, 1 and 2, each iff it is that command |
| `TestFrameworkAPI.Default` | testing/TestFramework/public/TestFrameworkAPI.h:16-56 | a value-initialised struct of a kind holds the command its default member initializer names |
| `TestFrameworkAPI.Items` | testing/TestFramework/public/TestFrameworkAPI.h:60-95 | serialize writes at least the command byte and one field, the command byte first |
| `TestFrameworkAPI.FromItems` | testing/TestFramework/public/TestFrameworkAPI.h:97-138 | the values read back form a struct of the kind they were read for |
| `TestFrameworkAPI.Decode` | testing/TestFramework/public/TestFrameworkAPI.h:97-138 | a struct read from a buffer keeps the item's kind and takes the buffer's first byte as its command |
| `TestFrameworkAPI.ItemsOfKind` | testing/TestFramework/public/TestFrameworkAPI.h:60-138 | every struct serializes values of the kinds its deserialize overload reads, in the same order |
| `TestFrameworkAPI.FromItemsOfItems` | testing/TestFramework/public/TestFrameworkAPI.h:60-138 | reading back the values serialize writes gives the same struct |
| `TestFrameworkAPI.MessageRoundTrip` | testing/TestFramework/public/TestFrameworkAPI.h:60-138 | deserialize into any struct of the same kind returns what serialize wrote, whatever bytes follow |
| `TestFrameworkAPI.CommandFirst` | testing/TestFramework/public/TestFrameworkAPI.h:60-95 | the first byte every serialize overload writes is the command |
| `TestFrameworkAPI.ClickReplyBytes` | testing/TestFramework/public/TestFrameworkAPI.h:81-95 | a click reply is exactly the command byte then the clicked flag as 0 or 1 |
| `TestFrameworkAPI.TwoItems` | testing/TestFramework/public/TestFrameworkAPI.h:76-95 | two serialize calls in a row append the two encodings one after the other |
| `TestFrameworkAPI.StateReplyHalves` | testing/TestFramework/public/TestFrameworkAPI.h:65-75 | a state reply's bytes are its first four fields' bytes followed by its last four |
| `TestFrameworkAPI.SerializeMessage` | testing/TestFramework/public/TestFrameworkAPI.h:60-95 | the buffer becomes the old buffer followed by the struct's bytes |
| `TestFrameworkAPI.SerializeTwo` | testing/TestFramework/public/TestFrameworkAPI.h:76-95 | the buffer gains the command's and the one field's encodings in order |
| `TestFrameworkAPI.SerializeStateReply` | testing/TestFramework/public/TestFrameworkAPI.h:65-75 | the buffer gains the eight fields of a state reply in declaration order |
| `TestFrameworkAPI.SerializeFour` | testing/TestFramework/public/TestFrameworkAPI.h:65-75 | four serialize calls append the four encodings in order |
| `TestFrameworkAPI.DeserializeMessage` | testing/TestFramework/public/TestFrameworkAPI.h:97-138 | the struct read is the one the reference decoding gives for the buffer |
| `TestFrameworkAPI.ReadPair` | testing/TestFramework/public/TestFrameworkAPI.h:115-138 | the two reads return the command and the field the reference decoding gives |
| `TestFrameworkAPI.ReadStateReply` | testing/TestFramework/public/TestFrameworkAPI.h:103-114 | the eight reads return the eight values the reference decoding gives |
| `TestFrameworkAPI.ReadTwo` | testing/TestFramework/public/TestFrameworkAPI.h:103-114 | two reads return the first two values and leave the offset where the rest begin |
| `TestFrameworkAPI.ReadOne` | testing/TestFramework/public/TestFrameworkAPI.h:97-138 | one read returns the first value and advances the offset to where the rest begin |
| `RPCCommon.TypeByte` | testing/RPC/public/RPCCommon.h:9-14 | the three message types are the bytes 0, 1 and 2, each iff it is that type |
| `RPCCommon.Header` | testing/RPC/public/RPCCommon.h:16-18 | the header is two bytes: the type at offset 0 and the command at offset 1 |
| `RPCCommon.Frame` | testing/RPC/public/RPCCommon.h:16-18 | a message is the header for the struct's command followed by the serialized struct |
| `RPCCommon.Convert` | testing/RPC/public/RPCCommon.h:22-28 | the converted struct is of the requested kind and takes the payload's first byte as its command |
| `RPCCommon.FrameRoundTrip` | testing/RPC/public/RPCCommon.h:16-28 | converting the payload of a framed message gives back the message, for every message type |
| `RPCCommon.FromReply` | testing/RPC/public/RPCCommon.h:40-45 | a result built from a reply is ready and holds that reply |
| `RPCCommon.NotReady` | testing/RPC/public/RPCCommon.h:46-51 | a default result is not ready and holds a value-initialised reply |
| `RPCCommon.FromFlag` | testing/RPC/public/RPCCommon.h:52-57 | a result built from a flag is ready iff the flag is set and holds a value-initialised reply |
| `RPCServer.Server.constructor` | testing/RPC/source/RPCServer.cpp:7-12 | a new server has no executors, has called none and has asked nothing of its socket server |
| `RPCServer.Server.Start` | testing/RPC/source/RPCServer.cpp:14-17 | the socket server is asked to listen on the port for at most one client, and its answer is returned |
| `RPCServer.Server.Stop` | testing/RPC/source/RPCServer.cpp:19-22 | the socket server is stopped and the executor table is unchanged |
| `RPCServer.Server.Send` | testing/RPC/public/RPCServer.h:35-57 | the socket server is asked to write the header bytes followed by the serialized struct, and its answer is returned |
| `RPCServer.Server.Respond` | testing/RPC/public/RPCServer.h:35-43 | the message written is a RequestResponse frame of the response, and the write result is returned |
| `RPCServer.Server.Notify` | testing/RPC/public/RPCServer.h:49-57 | the message written is a Notification frame of the notification, and the write result is returned |
| `RPCServer.Server.AddCommandExecutor` | testing/RPC/source/RPCServer.cpp:23-27 | the executor replaces whatever the command had, and nothing else changes |
| `RPCServer.Server.RemoveCommandExecutor` | testing/RPC/source/RPCServer.cpp:29-33 | the command's entry is erased, so nothing is registered for it |
| `RPCServer.Server.OnServerEvent` | testing/RPC/source/RPCServer.cpp:35-62 | non-empty client data calls the executor of the command in byte 1 with the bytes after the header; nothing is called without an executor, and other events change nothing |
| `RPCCommon.Dispatched` | testing/RPC/source/RPCServer.cpp:39-52 | at most one call; there is one exactly when an executor (or, for the client's notifications, a handler) is registered for the command byte, and it gets the bytes after the header |
| `RPCServer.RequestReachesExecutor` | testing/RPC/source/RPCServer.cpp:39-48 | a request framed with its command reaches that command's executor as a payload that converts back to the request |
| `RPCClient.Client.constructor` | testing/RPC/source/RPCClient.cpp:5-12 | a new client has an empty buffer, no handlers, no latched response, no transaction and last event SERVER_DISCONNECTED |
| `RPCClient.Client.Connect` | testing/RPC/source/RPCClient.cpp:14-17 | the socket client is asked to connect to the address and port, and its answer is returned |
| `RPCClient.Client.Disconnect` | testing/RPC/source/RPCClient.cpp:19-22 | the socket client is asked to disconnect and the client's state is unchanged |
| `RPCClient.Client.AddNotificationHandler` | testing/RPC/source/RPCClient.cpp:23-27 | the handler replaces whatever the command had, and nothing else changes |
| `RPCClient.Client.RemoveNotificationHandler` | testing/RPC/source/RPCClient.cpp:28-32 | the command's entry is erased, so nothing is registered for it |
| `RPCClient.Client.PrepareHeader` | testing/RPC/source/RPCClient.cpp:62-67 | the buffer is cleared and then holds exactly the message type and the command |
| `RPCClient.Client.OnClientEvent` | testing/RPC/source/RPCClient.cpp:33-60 | the awaited response is latched without its header; otherwise a notification goes to its command's handler, without its header; anything else, and a disconnection, changes nothing |
| `RPCClient.ResponseLatched` | testing/RPC/source/RPCClient.cpp:40-49 | a response the server frames is latched as a payload that converts back to the reply |
| `RPCClient.NotificationDelivered` | testing/RPC/source/RPCClient.cpp:50-56 | a notification the server frames reaches its command's handler as a payload that converts back to the notification |
| `SettingsHeaderGen.TypedText` | config/settings_header_gen.py:32-40 | an int gets uint32_t and its decimal text, which reads back as the int; a bool gets bool and true or false; a string gets std::string and itself in quotes; any other value gets nothing |
| `SettingsHeaderGen.BodyParts` | config/settings_header_gen.py:31-41 | a group line names its key and holds the typed value between the comma and the closing |
| `SettingsHeaderGen.HeaderText` | config/settings_header_gen.py:20-43 | the header starts with the guard, the banner and the macro's first line, and ends with the closing #endif |
| `SettingsHeaderGen.BodySingleLine` | config/settings_header_gen.py:31-41 | a group line holds no newline when its key and string value hold none |
| `SettingsHeaderGen.DecimalSingleLine` | config/settings_header_gen.py:33 | an int's decimal text holds no newline |
| `SettingsHeaderGen.OneLinePerKey` | config/settings_header_gen.py:29-41 | splitting the group lines at newlines gives one line per key, in the object's order |
| `SettingsHeaderGen.LinesAppend` | config/settings_header_gen.py:30-41 | one more key appends exactly its own group line |
| `SettingsHeaderGen.Generate` | config/settings_header_gen.py:4-45 | with fewer than two paths only the usage is printed and no file is opened; an unreadable input stops before the output is opened, a malformed one leaves the output empty, and a loaded one writes the header |
| `SettingsHeaderGen.WritePreamble` | config/settings_header_gen.py:20-29 | the output gains the guard pair, the banner and the macro's first line |
| `SettingsHeaderGen.WriteGroups` | config/settings_header_gen.py:30-41 | the output gains the group lines of all keys, in order |
| `SettingsHeaderGen.WriteGroup` | config/settings_header_gen.py:31-41 | the output gains the group line of one key |

## Left out

- Qt widgets, dialogs, palettes, signals and slots are not modelled. What the code hands to the GUI controller (texts, colours, registrations) is recorded as state, and dialog outcomes are inputs.
- Threads, mutexes and condition variables are not modelled. Each handler runs as one sequential step. The reading threads of the drivers become one loop pass per received chunk, and the executor's thread loop gets the point where `abort` lands as an input.
- The clock is an input. Timer expiry is an abstract event naming the timers whose timeout was reached, and the start time of a timer is not kept.
- System calls (`socket`, `connect`, `send`, `recv`), QSerialPort and file I/O are replaced by their results, passed in as inputs.
- `ProcessDriver.cpp` is not part of this model. The drivers proxy only dispatches to it.
- `std::regex` becomes predicate parameters: whether a trace filter's expression matches a line, and whether std::regex accepts an expression at all, are inputs. A refused expression is reported as `thrown`: std::regex_error is caught nowhere, so the program ends there, and the model states the fields as they are at the throw.
- Floating point is not modelled: the throughput calculation and its `%.2f` text.
- JSON parsing (nlohmann::json and Python's `json.load`) is not modelled. The generator takes the loaded object, or the failure to open or parse it, as its input.
- Logging is not modelled.
- `RPCClient::invoke` is not modelled, since it is a wait on a condition variable. Its parts are: `prepareHeader`, the latch in `onClientEvent`, and `convert` and `result`.
- The header that lists the serial enums is not part of this model. The serial enum name tables are rebuilt from the QSerialPort translation maps of `QtSerialDriver.cpp`.
- The port type's `toName`/`fromName` (`PortSettings.PortTypeName`, `PortSettings.PortTypeFromName`) follow testing/TestStubs/source/PortSettingDialog.cpp, the only implementation of them in the repository.
- Serialize.Deserialize: the `uint32_t` read offset is modelled as an unbounded natural, so an offset wrapping past 2^32 is not modelled.
- SerialDataGenerator.Generator.ProcessCommands: the `uint8_t` loop counter over `argv` is not modelled. With 256 or more arguments the source would loop again from argument 0.
- `atoi` on a number out of the range of `int` is not modelled, since C leaves it undefined.
- The `UT_Assert` checks on setting ids are preconditions rather than aborts.
- SerialDriver.Driver.ReceiveStep: `read` may store up to a whole payload behind the bytes already held, past the end of the 4096-byte buffer. The source then writes out of bounds (undefined behaviour). The model reports `overflow` and leaves the driver as it was, so what the source does after such a write is not modelled.
- ClientHandler.Handler.HeaderStep: `recv` reads as many payload bytes as the header announces into the 4096-byte buffer, with no check. For a payload that does not fit, the model reports `overflow` and leaves the buffer as it was, so the out-of-bounds write is not modelled.
- Port.Port.OnPersistenceRead: `std::stoll` throws on a stored number it cannot read. The exception leaves onPersistenceRead before handleNewSettings, with the port unchanged, and ends the rest of the restore. The model requires every number to be readable (`NumbersReadable`), so it does not model that exception.
- TraceFilter.Filter.OnPersistenceRead: a stored number that `std::stoll` cannot read throws in the same way. The user-defined flag is read straight into the filter, so an unreadable "id" leaves it changed and nothing else. The model requires readable numbers and does not model the exception.
- MainApplication.App.OnPersistenceRead: the saved image is read without bounds checks, so a truncated image is read past its end. The model requires a well-formed image (`ReadImage(data).Some?`) and does not model that read.
- Port.Port.SetState: the port label text that setState sets to `summaryString()` (sw/MainApplication/source/Port.cpp:235) is not recorded. `PortSettings::summaryString` is not part of this model.
- SettingsStore.SettingsHandler.OnPersistenceRead: the model requires data that reads to its end as whole triples (`ReadAll(data, 0).Some?`). On truncated data the source's `deserialize` reads past the end of the vector, and the `offset != size` loop may never stop. Neither is modelled.
- RPCServer.Server.OnServerEvent: the model requires received data that is not empty to hold the whole two-byte header. A one-byte message makes the source read the command byte past the end and build a vector from `begin() + 2`, which is undefined behaviour and is not modelled.
- RPCClient.Client.OnClientEvent: the model requires received data to hold the type byte, and the whole header whenever it is used. Shorter data is read past its end by the source (undefined behaviour), which is not modelled.

## Findings

| source | as written | input that shows it | evidently intended | confidence | as-written member | corrected member |
|---|---|---|---|---|---|---|
| sw/Utilities/source/PersistenceHandler.cpp:85-91 | `encodeSize` masks each byte of the size but casts the mask to `uint8_t` without shifting, so only the low byte survives and the other three are 0 | a 256-byte block is saved with size 0, and restore then misreads the file | the four little-endian bytes of the size, as `decodeSize` reads them | high, not executed | `PersistenceHandler.EncodeSizeAsWrittenCounterexample` | `PersistenceHandler.SizeRoundTrip` |
| sw/Drivers/source/SocketClient.cpp:186-203 | after each `send`, the remaining count is reduced by the total written so far, not by this call's count (the same loop is in ClientHandler.cpp:68-83) | a 10-byte buffer where `send` takes 3, 3 and then 1 byte: the loop stops and reports success after 7 bytes | reduce the remaining count by each call's own result, and succeed only when every byte went out | high, not executed | `SocketWrite.PartialSendsReportSuccess` | `SocketWrite.SendAll` |
| sw/MainApplication/source/PortHandler.cpp:89-90 | `snprintf` is limited to 100 characters although the buffer holds 200, and the text is 99 characters for a six-digit colour | any colour picked in the port settings dialog: `QColor::rgb()` (sw/Dialogs/source/PortSettingDialog.cpp:304) sets alpha 0xFF, so 0xFF000000 prints eight digits and the stylesheet loses its final "y;" | the whole stylesheet for every colour the buffer was sized for | high, not executed | `PortHandler.RgbColoursCut` | `PortHandler.LabelStyleWhole` |
| sw/MainApplication/source/MainApplication.cpp:175-176 | the terminal time stamp prints `tm_mon`, which counts months from 0 | a time in January is stamped with month "00" | the calendar month, `tm_mon + 1` | high, not executed | `MainApplication.JanuaryStampedAsMonthZero` | `MainApplication.StampMonthIsCalendarMonth` |
| sw/MainApplication/source/MainApplication.cpp:443-454 | the log file name prints `tm_mon` as well | a log created in December is named with month "11" | the calendar month, `tm_mon + 1` | high, not executed | `MainApplication.LogFileMonthsAsWritten` | `MainApplication.LogFileMonths` |
| sw/MainApplication/source/UserButtonsTab.cpp:26-29 | each button gets its index within the tab as its id, although its object name uses the index among all tabs, and the id names its persistence block | button 0 of tab 0 and button 0 of tab 1 register under the same persistence name, so restore hands each the other's data | the global index `tab_id * buttons_count + i`, as in the button name | medium, not executed | `UserButtonsTab.PersistenceNamesCollide` | `UserButtonsTab.PersistenceNamesDistinct` |
| tools/SerialDataGenerator.cpp:254-280 | an argument that is not an option prints an error and leaves the loop, but the result keeps the value of the last option parsed | `--device=x y` returns true and the generator runs | reject the command line whenever an argument is not an option | medium, not executed | `SerialDataGenerator.DeviceThenNonOption` | `SerialDataGenerator.ProcessedOnlyOptions` |
