# Haussteuerung: a verified model

The program is a house-automation daemon.  It drives four window blinds, ventilation, garden valves and a
light through remote I/O boards, takes commands and weather readings over UDP and TCP, keeps its settings in
an ini file that it rewrites itself, and publishes its state as one small XML text in shared memory.

This project models its four stateful parts, method by method, and proves what they guarantee over every run.

* **The settings** (`CStrings`, `SlotTable`, `Dictionary`, `IniText`, `IniParser`, `IniLine`, `IniShapes`, `IniRoundTrip`,
  `IniExact`, `IniSurvival`, `ConfigStore`): the hash table with holes, the printer, the `sscanf`-driven parser, and the
  load-set-dump transaction.  The slot table is a map; reading undoes printing *exactly* for the dictionaries
  that `IniRoundTrip.Printable` describes; the printed text is a fixed point; a transaction changes one key.
* **The blinds** (`Blinds`, `Jalousie`, `BlindSafety`, `BlindClaims`, `BlindHeights`, `DriveRuns`, `BlindMotion`, `BlindSun`)
  **and the weather** (`Weather`, `WeatherMotion`): four motors with two relays each, one detached timer thread
  per drive.  `BlindSafety`, `BlindClaims`, `BlindHeights` and `DriveRuns` use the fine grain, in which a cancelled thread may
  wake up late, a command may come between waking up and finishing, and thread creation may fail; `BlindMotion`
  and `BlindSun` the coarse one, in which an expiry is one step and a cancellation comes in time.
  `BlindHeights`, `BlindMotion` and `BlindSun` add the physics: a height per blind that moves while a relay is on.
* **The shared ports** (`Pcf8574`, `MainPort`, `HighRuns`, `Garden`): one active-low byte that several state
  machines and their timers write, and how long the ventilation runs high.
* **Two agreements** (`DuplicateFilter`, `StatusDocument`, `StatusTemplate`): the five-slot ring that drops
  repeated UDP packets, and the find-and-replace on the status text.

Where the program changes state in place the model is a class with the same fields, and every method is proved
equal to a function on the state; the theorems over runs are about those functions.

## What the proofs found

* `dictionary_get` compares with a NULL key exactly if the key hashes to 0, as the empty one does, and a hole
  stands in front of it, or anywhere if it is not in the table, because holes store hash 0
  (`Dictionary.ZeroHashIsUnsafe`).  Every key with another hash is safe.
* The parser's comment promises that `""` and `''` are read as the empty value.  Exactly these lines are
  (`IniLine.EmptyValueExactly`): the two quotes are followed at once by a comment or by the end of the text, or
  the value is a quoted run of blanks or of two quotes of the other kind.  On an ordinary line `key = ""` the
  line break stands behind the quotes, and the value is the two quotes themselves (`IniLine.EmptyQuotes`).
* If its names, values and printed lines fit into lines of the buffer, a save and a load keep a dictionary exactly
  if every key has its section, sections are NULL and entries are not, every name is fit for its line and every
  value for its form, quoted or bare; an empty value, for example, is lost (`IniExact.RoundTripExactly`,
  `IniExact.OneSettingComesBack`).
* A hand-written file whose headers have no colon survives its first save exactly if no entry precedes the first
  header and every entry survives its printed line, which may lose its closing quote and its line break to the
  buffer but nothing of the value, and the value must be fit for what is left (`IniSurvival.FirstSaveExactly`).
  The save pads every name to 30 columns, so a line that was read in one piece can be printed too long for the
  buffer: of a one-letter setting's plain value 990 characters survive, 991 do not (`IniSurvival.LongValues`).
* The claimed position of a blind can be wrong: a thread whose cancellation comes too late claims the old end
  position while the blind already moves the other way (`BlindClaims.StaleClaim`).  The exact condition, in every
  reachable state: claims stay true in all continuations without a late cancellation if and only if they are true
  now, no blind drives away from the end it is said to be at, and no thread sleeps through a full drive that is
  over (`BlindHeights.HeightsAgreeExactly`).  So effective cancellation alone makes every claim true, whatever
  comes between waking up and finishing (`BlindHeights.HeightsAgree`), and one late cancellation of a thread
  that sleeps through a full drive is enough to lose that (`BlindClaims.OneLateCancellation`).
* Whether the weather reopens, when the sun goes and the waiting time is over, what it closed and nobody moved
  since, depends on the setting `close_to_sun`: a close to the sun position is forgotten by the first tick that
  finds the blinds at rest, a close by full drives is remembered (`WeatherMotion.ReopensExactly`).
* A drive of a blind whose thread still sleeps lasts its time in all continuations without commands exactly if no
  other thread of its blind is awake or wakes up before (`DriveRuns.DriveLastsExactly`): a thread that was awake
  when the blind was reversed still stops the new drive.  In the same way a valve timer whose cancellation came too
  late closes a later opening (`Garden.OpenValveStaysExactly`).
* As long as its board does not restart, a high run of the ventilation lasts its time exactly if no older timer is
  due before (`HighRuns.HighRunLastsExactly`).  If the board never restarted no older timer exists
  (`HighRuns.HighRunsLastTheirTime`); a restart ends a high run but leaves its timer, which can cut the next run
  short (`HighRuns.OldTimerEndsNewRun`).  A comment asks for retriggering; `setHigh` ignores a second HIGH.
* A restart of one I/O board clears the duplicate rings of all boards, so the next packet of every other board
  passes whatever was accepted before, unless its count is -1 (`DuplicateFilter.RestartReadmitsAll`): a packet with
  the count -1 is taken for a copy until five counts have been accepted (`DuplicateFilter.FilterEqualsHistory`).
* An update of the status text with a value without angle brackets obeys the update law exactly if its tag is there,
  its closing tag, or nothing, stands right behind its text, and the result has at most 1024 characters
  (`StatusDocument.UpdateIsExact`); an unknown tag destroys the text from position `length - 1` on, up to its
  closing tag if that stands behind it, or throws (`StatusDocument.UnknownTagDestroys`).
* `iniparser_setstr` is documented to return -1 for an unknown entry; the code adds the entry.  The model
  follows the code.

## How the environment appears

* A method that holds its lock for its whole body is one step.  Steps of different threads interleave freely.
* What the system decides is a parameter: whether `pthread_create` succeeds and what a failure leaves in the
  thread id, whether a cancellation comes in time (`Blinds.Env`).  `pthread_join` on a detached thread is taken
  to do nothing.
* Relays and ports are the last commanded image; the results of the commands, which the callers ignore, are
  not modelled.
* A file is its text, or nothing if it cannot be opened; the settings a method loads are a parameter (`conf`, `low`), and the clock is a pair of
  readings per weather tick: at the start and at the end.
* The shared segment is one page, since shared memory comes in whole pages; its text ends at the first NUL.
* `char` is a signed byte in the hash, as on the platforms the daemon is built for; strings are NUL-free and
  case and blanks are those of the C locale.
* The scanning rules of `sscanf`, `%-30s` and `fgets` are those of ISO C11, sections 7.21.6.2, 7.21.6.1 and
  7.21.7.2; the meaning of cancelling a thread is that of POSIX.1-2008, section 2.9.5.

## Model

| member | source | states |
|---|---|---|
| IniExact.RoundTripExactly | lib/iniparser-2.16/src/iniparser.cpp:172-217 | for any dictionary whose keys, values and lines fit into lines, loading the dumped text gives the same map if and only if it is printable: every key has its section, sections have NULL and other keys non-NULL values, names and values are fit |
| IniRoundTrip.ReadingUndoesPrinting | lib/iniparser-2.16/src/iniparser.cpp:466-517 | the parser undoes the printer on every printable dictionary, whatever holes its table has |
| IniRoundTrip.PrintedTextIsStable | lib/iniparser-2.16/src/iniparser.cpp:192-215 | dump(load(dump(d))) equals dump(d) character for character |
| IniRoundTrip.PrintingIsAPartition | lib/iniparser-2.16/src/iniparser.cpp:107-127 | section names are enumerated without repeats and every entry of a printable dictionary is printed exactly once, under its own section |
| IniRoundTrip.ListingPrintsTheSame | lib/iniparser-2.16/src/iniparser.cpp:192-214 | section order and the order within a section survive: the reordered table prints the same lines |
| IniRoundTrip.LoadedListing | lib/iniparser-2.16/src/iniparser.cpp:486-513 | the loaded table holds the printed entries in printed order, packed without a hole |
| IniRoundTrip.PrintedFileEffects | lib/iniparser-2.16/src/iniparser.cpp:488-512 | reading a dumped file makes exactly one dictionary_set per printed entry, in the order of printing |
| IniRoundTrip.LinesOfText | lib/iniparser-2.16/src/iniparser.cpp:488-490 | fgets with a 1024 byte buffer returns exactly the lines that were written, if each fits |
| IniExact.LineBreakIsLost | lib/iniparser-2.16/src/iniparser.cpp:498-511 | a dictionary with a line break in a value never comes back, whatever else it holds |
| IniExact.HeaderLikeIsLost | lib/iniparser-2.16/src/iniparser.cpp:494-500 | in a dictionary that comes back no printed name can be taken for a section header, not even one whose line another line would repair |
| IniExact.EntriesThatComeBack | lib/iniparser-2.16/src/iniparser.cpp:498-511 | every entry of a dictionary that comes back has its section present and a name and value fit for their line |
| IniExact.SectionsThatComeBack | lib/iniparser-2.16/src/iniparser.cpp:494-497 | every section of a dictionary that comes back has a fit name and a NULL value |
| IniExact.NoPlainEntry | lib/iniparser-2.16/src/iniparser.cpp:183-190 | without a section nothing comes back: every load puts a colon in front of every key |
| IniExact.OneSettingComesBack | lib/iniparser-2.16/src/iniparser.cpp:201-211 | a table with a section, a hole and one setting comes back if and only if the value is fit: `a=b` does, the empty value does not |
| IniExact.OneSettingText | lib/iniparser-2.16/src/iniparser.cpp:195-215 | the very text of a saved file: blank line, header, the name in 30 columns, quotes around a value with an equals sign, blank line |
| IniLine.EntryComesBack | lib/iniparser-2.16/src/iniparser.cpp:498-511 | a printed entry line is read back as the same name and value if and only if name and value are fit, 30-column padding, quoting and cropping included |
| IniLine.ValueComesBack | lib/iniparser-2.16/src/iniparser.cpp:201-211 | a one-line value is scanned back from its printed form if and only if: with '=' it has no double quote and no trailing blank; without, it is non-empty, cropped, has no ';' or '#' and does not open a quoted run |
| IniLine.SectionComesBack | lib/iniparser-2.16/src/iniparser.cpp:494-496 | a printed header is read back as the same section if and only if the name is non-empty, lower case and has no ']' |
| IniLine.AssignedNamesAreOk | lib/iniparser-2.16/src/iniparser.cpp:498-501 | whatever line is read, the name it assigns to is one the printer can write and the parser read again |
| IniLine.EmptyValueExactly | lib/iniparser-2.16/src/iniparser.cpp:498-510 | over every line: it assigns the empty value if and only if it is an entry line whose value is a quoted run of blanks or of two quotes, or no quoted run but two quotes with a comment or the end of the text right behind them |
| IniLine.EmptyQuotes | lib/iniparser-2.16/src/iniparser.cpp:502-510 | two quotes are the empty value at the end of an unterminated line and in front of a comment, quoted blanks and quoted quotes are too, but on an ordinary line two quotes stay two quotes |
| IniShapes.BareLine | lib/iniparser-2.16/src/iniparser.cpp:498-511 | a name in upper or lower case, blanks anywhere, a value that needs no quotes, and a comment or nothing behind it assign the lower-cased name and the whole value, without the blanks around it |
| IniShapes.QuotedLine | lib/iniparser-2.16/src/iniparser.cpp:498-511 | in either kind of quotes the value is all between them, whatever follows, without its trailing blanks; two quotes of the other kind are empty |
| IniShapes.HeaderLine | lib/iniparser-2.16/src/iniparser.cpp:490-497 | a header in upper or lower case, with anything behind its bracket or no bracket at all, makes the lower-cased name current |
| IniShapes.CommentLine | lib/iniparser-2.16/src/iniparser.cpp:490-492 | comments and blank lines are ignored |
| IniShapes.NoValue | lib/iniparser-2.16/src/iniparser.cpp:498-500 | a name without a value is ignored |
| IniShapes.EntryHasShape | lib/iniparser-2.16/src/iniparser.cpp:498-511 | every line that assigns has one of these shapes behind its equals sign: a quoted run, or all up to a comment |
| ConfigStore.TransactionUpdatesOneKey | src/haussteuerung.cpp:812-818 | load, set, dump, load is the old map updated at the lower-cased key, if the changed dictionary can be saved |
| ConfigStore.GoodSettingIsStored | src/haussteuerung.cpp:812-818 | from a file that can be saved, a good value under an existing section is stored, nothing else changes, the sections stay, and the new file fulfils the same conditions again |
| ConfigStore.SettingIsStoredExactly | src/haussteuerung.cpp:812-818 | from a printable file, if the changed table is line-sized, the new file means the old map with the one key changed if and only if the key names an entry of an existing section and name and value are fit |
| ConfigStore.MessagesAreStored | src/haussteuerung.cpp:801-820 | over any row of good set-config messages no transaction meets a NULL value, the file means the fold of the updates, and it can be saved again |
| IniSurvival.FirstSaveExactly | lib/iniparser-2.16/src/iniparser.cpp:488-513 | a file whose headers have no colon, loaded, dumped and loaded again, gives the same map if and only if no entry precedes the first header and every entry survives its printed line: fit value, line not cut inside it; whatever the length of the lines |
| IniSurvival.ViewReadsBack | lib/iniparser-2.16/src/iniparser.cpp:200-212 | the first chunk that fgets takes of a printed entry reads as that name and value if and only if the entry survives, cut-off quotes and line breaks included |
| IniSurvival.AllQuiet | lib/iniparser-2.16/src/iniparser.cpp:488-513 | in a table that comes back no line is cut inside its value: what all chunks give weighs less than what is stored |
| IniSurvival.LinesOfChunks | lib/iniparser-2.16/src/iniparser.cpp:488 | the chunks of a file are the chunks of its lines, however long they are |
| IniSurvival.PlainIsLost | lib/iniparser-2.16/src/iniparser.cpp:183-190 | no entry of a file without a header comes back, whatever its length |
| IniSurvival.LongValues | lib/iniparser-2.16/src/iniparser.cpp:207-210 | a one-letter setting survives if and only if its bare value has at most 990 characters |
| IniExact.LoadedIsPrintable | lib/iniparser-2.16/src/iniparser.cpp:488-513 | what is loaded from a file whose headers have no colon is printable if and only if every stored value is fit and no entry precedes the first header |
| ConfigStore.SetLowIsReadBack | src/abluft.cpp:62-83 | the flag that setLow saves is the one that a later iniparser_getboolean reads |
| ConfigStore.FlagIsRead | lib/iniparser-2.16/src/iniparser.cpp:370-385 | a flag is on if and only if its value starts with one of y, Y, 1, t, T; a missing one is off |
| ConfigStore.LoadedLookup | lib/iniparser-2.16/src/dictionary.cpp:170-188 | in a freshly loaded table every stored key is found, even one that hashes to 0: there is no hole in front of it |
| ConfigStore.SetConfig | src/haussteuerung.cpp:812-818 | the transaction in place writes the dump of the changed table, or meets a NULL value exactly if the table is not dumpable; a file that cannot be opened becomes an empty one |
| IniParser.LoadIni | lib/iniparser-2.16/src/iniparser.cpp:466-517 | NULL if and only if the file cannot be opened, else a table filled with the calls that the lines of the text describe |
| IniParser.LoadText | lib/iniparser-2.16/src/iniparser.cpp:486-516 | the reading loop |
| IniParser.LoadLine | lib/iniparser-2.16/src/iniparser.cpp:490-513 | one line makes at most one dictionary_set and leaves the right section current |
| IniParser.DumpIni | lib/iniparser-2.16/src/iniparser.cpp:172-217 | the nested printing loops write the text of the dictionary, and meet a NULL value exactly if it is not dumpable |
| IniParser.DumpSection | lib/iniparser-2.16/src/iniparser.cpp:193-213 | one section is printed as its header and the lines of exactly its own keys in slot order |
| IniParser.GetSecName | lib/iniparser-2.16/src/iniparser.cpp:107-127 | the n-th colon-free key in slot order, or NULL outside 0..nsec-1 |
| IniParser.GetNSec | lib/iniparser-2.16/src/iniparser.cpp:74-89 | the number of colon-free keys |
| IniParser.Fgets | lib/iniparser-2.16/src/iniparser.cpp:488 | the text up to and including the line break, at most 1023 characters, and the rest of the file |
| IniParser.SetStr | lib/iniparser-2.16/src/iniparser.cpp:429-433 | sets the lower-cased key |
| IniParser.GetString | lib/iniparser-2.16/src/iniparser.cpp:261-273 | looks up the lower-cased key |
| CStrings.StrLwc | lib/iniparser-2.16/src/strlib.cpp:54-68 | lower case, cut to the 1024 characters of the buffer |
| CStrings.StrSkp | lib/iniparser-2.16/src/strlib.cpp:114-120 | the string from its first non-blank on |
| CStrings.StrCrop | lib/iniparser-2.16/src/strlib.cpp:139-155 | the string up to its last non-blank |
| CStrings.LowerLetters | lib/iniparser-2.16/src/strlib.cpp:62-65 | each of the 26 letters becomes its small one and every other character stays |
| CStrings.CaseIsIgnored | lib/iniparser-2.16/src/iniparser.cpp:269 | names that differ only in the case of letters are one key, and no capital is left in it |
| SlotTable.TableRefinesMap | lib/iniparser-2.16/src/dictionary.cpp:288-384 | over every sequence of sets and unsets the table is the map: keys stay distinct, growth loses nothing, n is the size of the map |
| SlotTable.PutIsUpdate | lib/iniparser-2.16/src/dictionary.cpp:288-340 | setting is map update, whether the key is known, fills a hole or makes the table double |
| SlotTable.DropIsRemoval | lib/iniparser-2.16/src/dictionary.cpp:353-384 | unsetting is map removal |
| SlotTable.CountIsSize | lib/iniparser-2.16/src/dictionary.cpp:334-338 | the number of occupied slots is the number of keys |
| Dictionary.SearchIsMapLookup | lib/iniparser-2.16/src/dictionary.cpp:170-188 | a key with a non-zero hash is looked up in the map, whatever the collisions and holes |
| Dictionary.ZeroHashIsUnsafe | lib/iniparser-2.16/src/dictionary.cpp:177-184 | a key that hashes to 0 is compared with a NULL key if and only if a hole stands in front of it, or anywhere if it is not in the table; otherwise it is looked up in the map |
| Dictionary.EmptyKeyHashesToZero | lib/iniparser-2.16/src/dictionary.cpp:85-94 | the empty key is one of those |
| Dictionary.DictionaryHash | lib/iniparser-2.16/src/dictionary.cpp:79-95 | the hash loop with 32-bit wrap-around and sign-extended characters |
| Dictionary.HashOfA | lib/iniparser-2.16/src/dictionary.cpp:79-95 | the published value of this hash for one letter |
| Dictionary.HashOfAB | lib/iniparser-2.16/src/dictionary.cpp:79-95 | its value for two letters |
| Dictionary.HashOfUmlaut | lib/iniparser-2.16/src/dictionary.cpp:87 | its value for a letter beyond ASCII, whose sign is extended |
| Dictionary.Doubled | lib/iniparser-2.16/src/dictionary.cpp:51-59 | twice the room, old contents in front, zeroes behind |
| Dictionary.Dictionary.Get | lib/iniparser-2.16/src/dictionary.cpp:170-188 | the search loop over the hash array, including the comparison with a NULL key |
| Dictionary.Dictionary.Set | lib/iniparser-2.16/src/dictionary.cpp:288-340 | sets in place: the table is the old one with the key put, all three arrays and n stay consistent |
| Dictionary.Dictionary.Unset | lib/iniparser-2.16/src/dictionary.cpp:353-384 | unsets in place, leaving a hole with hash 0 |
| BlindSafety.RelayInterlock | src/jalousie.cpp:191-275 | over every run with stale threads, failed creations and device resets no relay command leaves both relays of a blind on, and the pair decodes to drvstate |
| BlindSafety.NoRunaway | src/jalousie.cpp:225-309 | a blind that moves has its recorded thread alive; that thread stops it or hands the sun drive to a new live thread; no ended thread is ever cancelled |
| BlindSafety.StepKeeps | src/jalousie.cpp:117-309 | every command, wake-up, finish and reset keeps the invariant behind both |
| BlindSafety.ResetRestoresRelays | src/haussteuerung.cpp:845-846 | initOut and init put any relay image back to what the controller believes, without both relays on in between |
| BlindSafety.FailedCreation | src/jalousie.cpp:251-256 | without a thread a driven blind stands still, both relays off, its position unknown |
| BlindHeights.HeightsAgreeExactly | src/jalousie.cpp:225-309 | in every world reachable with late cancellations, claims stay true in all continuations without one if and only if they are true now, no blind drives away from its claim, and no thread sleeps through a full drive that is over |
| BlindHeights.HeightsAgree | src/jalousie.cpp:286-309 | with effective cancellation alone, at every moment of every interleaving, AUF means at the top and not driving down, AB at the bottom and not driving up |
| BlindHeights.StepPhys | src/jalousie.cpp:167-309 | the invariant that ties every thread whose drive goes on to the way its blind has come, late cancellations included |
| DriveRuns.DriveLastsExactly | src/jalousie.cpp:293-308 | in every world reachable with late cancellations, a drive lasts its time in all continuations without commands if and only if no other thread of its blind is awake or wakes up before |
| BlindClaims.ClaimsStayRightExactly | src/jalousie.cpp:225-309 | the same without times: claims never contradict the drive in any continuation without a late cancellation, if and only if they do not now and no full-drive thread outlived its drive asleep |
| BlindClaims.ClaimsAreRight | src/jalousie.cpp:286-309 | without a late cancellation no claim contradicts the drive |
| BlindClaims.OneLateCancellation | src/jalousie.cpp:236 | one late cancellation of a thread that sleeps through a full drive makes a wrong claim possible, even if every later one is in time |
| BlindClaims.StaleClaim | src/jalousie.cpp:294-298 | a run in which such a thread claims AB while the blind moves up |
| BlindMotion.PositionClaimsAreSound | src/jalousie.cpp:167-309 | from any start heights and over any mix of drives, impulses, reversals, stops, sun drives and resets: position AUF means at the top and at rest, AB at the bottom and at rest |
| BlindMotion.StepIsFineRun | src/jalousie.cpp:286-309 | every coarse step is a run of the fine model |
| BlindMotion.StepFits | src/jalousie.cpp:117-309 | the invariant that ties every running timer to the way its blind has come |
| BlindSun.ComesToRest | src/jalousie.cpp:277-309 | without commands a moving blind uses up its rest time one for one and stops after at most two expiries |
| BlindSun.SunRestIsBounded | src/jalousie.cpp:167-182 | the rest time of a sun drive is at most FAHRZEIT + 2400000 + SONNENZEIT |
| BlindSun.NeverStuck | src/jalousie.cpp:293-305 | in such a run a timer is due or time can pass |
| BlindSun.SunDriveEndsInTheGap | src/jalousie.cpp:167-182 | a sun drive from anywhere ends at rest, UNDEF, exactly one SONNENZEIT pulse above the bottom |
| BlindSun.FullDriveArrives | src/jalousie.cpp:123-152 | from anywhere, unless it already drives that way, a blind given a full drive rests at that end once the longest drive is over, and the position says so |
| BlindSun.FullDriveTime | src/jalousie.cpp:277-283 | a full drive sleeps FAHRZEIT and the offset that is next in turn |
| BlindSun.DriveIsNotRepeated | src/jalousie.cpp:191-223 | a blind at the end, or on its way there, is not driven again |
| BlindSun.ToggleDrivesOrStops | src/jalousie.cpp:129-165 | from rest a toggle is a full drive; a moving blind it stops where it is |
| BlindSun.StopStops | src/jalousie.cpp:184-188 | a stop stops the blind where it is and leaves the others alone |
| BlindSun.ImpulseMoves | src/jalousie.cpp:117-146 | an impulse moves the blind for exactly its time and leaves it at rest; the position is known only after a full drive |
| BlindSun.SunFromTheBottom | src/jalousie.cpp:174-177 | a closed blind only gets the short pulse up |
| Jalousie.Jalousie.constructor | src/jalousie.cpp:24-43 | everything stopped, undefined and off |
| Jalousie.Jalousie.Init | src/jalousie.cpp:45-66 | the relays are set from drvstate |
| Jalousie.Jalousie.DrvAufwaertsFor | src/jalousie.cpp:117-121 | an upward drive for the given time |
| Jalousie.Jalousie.DrvAufwaerts | src/jalousie.cpp:123-127 | a full upward drive with the next offset |
| Jalousie.Jalousie.ToggleAufwaerts | src/jalousie.cpp:129-140 | starts a stopped blind and stops a moving one |
| Jalousie.Jalousie.DrvAbwaertsFor | src/jalousie.cpp:142-146 | a downward drive for the given time |
| Jalousie.Jalousie.DrvAbwaerts | src/jalousie.cpp:148-152 | a full downward drive with the next offset |
| Jalousie.Jalousie.ToggleAbwaerts | src/jalousie.cpp:154-165 | starts a stopped blind and stops a moving one |
| Jalousie.Jalousie.DrvSonneNow | src/jalousie.cpp:167-182 | closes first with a timer that comes back, or goes straight to the gap |
| Jalousie.Jalousie.Stop | src/jalousie.cpp:184-188 | stops the blind under the lock |
| Jalousie.Jalousie.PDrvAufwaerts | src/jalousie.cpp:191-206 | nothing if already driving up, else stop and drive unless already at the top |
| Jalousie.Jalousie.PDrvAbwaerts | src/jalousie.cpp:208-223 | nothing if already driving down, else stop and drive unless already at the bottom |
| Jalousie.Jalousie.PStopNow | src/jalousie.cpp:225-240 | drive state, both relays and the recorded thread |
| Jalousie.Jalousie.DrvNow | src/jalousie.cpp:242-275 | position undefined, thread created, then drive state and one relay; a failed creation leaves the rest alone |
| Jalousie.Jalousie.Offset | src/jalousie.cpp:277-283 | 0, 800, 1600, 2400 ms in turn |
| Jalousie.Jalousie.TimerWakes | src/jalousie.cpp:293-298 | the wake-up with its unlocked setPosition |
| Jalousie.Jalousie.TimerFinishes | src/jalousie.cpp:299-308 | the locked call back and the end of the thread |
| Weather.Hysteresis | src/devices.cpp:359-426 | two weather drives closer than the waiting time: the later one is an opening and enabled wind or rain protection is triggered |
| Weather.NoChatter | src/devices.cpp:352-426 | with constant readings and settings and the open threshold at most the close threshold no run both opens and closes |
| Weather.OpensOnlyItsOwnClose | src/devices.cpp:354-381 | without protection the weather opens only if the counted blinds are all AB and its own last drive was a close that nothing has undone since |
| Weather.StampIsLatest | src/devices.cpp:388-389 | the time stamp is never older than the latest drive |
| Weather.StampIsExact | src/devices.cpp:388-389 | while nothing is driven the stamp is exactly the time of the drive before |
| Weather.OpensExactly | src/devices.cpp:336-381 | in raw readings and settings: a tick opens if and only if the blinds rest, are not all open, and wind or rain protection triggers, or the sun is gone, the waiting time over and the own close still stands |
| Weather.ClosesExactly | src/devices.cpp:395-420 | in raw readings and settings: a tick closes if and only if the blinds rest, are all open, and waiting time, brightness, temperature, wind and rain allow it; the settings choose how and which |
| Weather.RemembersExactly | src/devices.cpp:354-424 | what is remembered after a tick |
| Weather.Wetter.WetterSteuerung | src/devices.cpp:318-427 | one tick decides as specified, issues exactly the drives of the decision and remembers it |
| WeatherMotion.ReopensExactly | src/devices.cpp:354-381 | with the blinds left where an undisturbed close brought them, the sun gone and the waiting time over, a tick without protection reopens them if and only if they were not closed to the sun position |
| WeatherMotion.SunCloseIsForgotten | src/devices.cpp:354-356 | after an undisturbed sun close, at every tick from the first at rest to the next weather close, only protection opens the blinds |
| WeatherMotion.PlainCloseIsReopened | src/devices.cpp:371-391 | a close by full drives ends with the counted blinds AB, is remembered while they stay closed, and is reopened once the sun is gone and the waiting time over |
| WeatherMotion.ClosingEnds | src/jalousie.cpp:167-182 | the first tick at rest comes: past the longest drive nothing moves |
| WeatherMotion.ClosingArrives | src/devices.cpp:405-424 | after a weather close every counted blind stands at the bottom, or one pulse above it in an undefined position, and one that is not counted has not moved |
| WeatherMotion.StormOpensAll | src/devices.cpp:359-391 | at any tick at rest with a blind not open, enabled wind or rain protection opens all four, wherever they stand and whoever put them there, and they arrive at the top |
| WeatherMotion.OpeningIsIssued | src/devices.cpp:384-387 | the opening of the motion model is the one the controller issues |
| WeatherMotion.ClosingIsIssued | src/devices.cpp:407-420 | the closes of the motion model are the ones the controller issues |
| Pcf8574.PutChangesOneOutput | src/pcf8574_ts.cpp:43-92 | switching one output changes that output and no other |
| Pcf8574.Pcf8574.Init | src/pcf8574_ts.cpp:32-37 | sends the shadow byte |
| Pcf8574.Pcf8574.Set | src/pcf8574_ts.cpp:43-53 | switches one output and sends the byte |
| Pcf8574.Pcf8574.On | src/pcf8574_ts.cpp:84-92 | clears the bit, active low |
| Pcf8574.Pcf8574.Off | src/pcf8574_ts.cpp:71-79 | sets the bit |
| MainPort.PortAgreement | src/abluft.cpp:30-183 | over every interleaving of ventilation, light, display, timers, settings and device restarts the byte on the wire decodes to every device's state, and HIGH has the timer of this run pending |
| MainPort.InitAgrees | src/haussteuerung.cpp:835-838 | re-initialising makes the port agree with the devices, whatever was on it |
| MainPort.LevelFollows | src/abluft.cpp:62-103 | in every reachable state setLow and updateLow give the level of the command and of the setting, on the wire too, unless HIGH |
| MainPort.HighFollows | src/abluft.cpp:105-183 | HIGH is on the wire at once, with a new timer, if its thread could be created; otherwise nothing changes |
| MainPort.LightAndDisplayFollow | src/abluft.cpp:275-341 | the light and the outputs of the display become what they are told, and no other device notices |
| MainPort.RestartShows | src/haussteuerung.cpp:835-838 | a restart ends HIGH, keeps the light and the timers, and switches the outputs of the display off |
| MainPort.Bytes | src/pcf8574_ts.cpp:71-92 | the very bytes on the wire for the three levels and the light |
| MainPort.SecondsIs | src/abluft.cpp:309 | a duration from 0 on is slept as it is, a negative one for more than 68 years |
| MainPort.TimerEndsHigh | src/abluft.cpp:303-326 | an expired timer ends HIGH at the level of the setting |
| HighRuns.HighRunLastsExactly | src/abluft.cpp:152-183 | in every reachable state a triggered HIGH lasts its duration, whatever the other devices do and as long as the board does not restart, if and only if no older timer is due before |
| HighRuns.HighRunsLastTheirTime | src/abluft.cpp:105-183 | without a restart every HIGH run is ended by its own timer, the only one pending, exactly when its time is over |
| HighRuns.OldTimerEndsNewRun | src/abluft.cpp:303-319 | a restart while HIGH keeps the timer; the next HIGH run has both pending and is cut short if and only if it was triggered for longer than an old timer still has to go |
| HighRuns.StepOneTimer | src/abluft.cpp:105-108 | every step but a restart keeps: the only pending timer is that of the HIGH run that goes on |
| MainPort.Abluft.Init | src/abluft.cpp:30-47 | the level of the setting, with the outputs written in any case |
| MainPort.Abluft.SetLow | src/abluft.cpp:62-83 | the new level unless HIGH |
| MainPort.Abluft.UpdateLow | src/abluft.cpp:85-103 | the level of the setting unless HIGH |
| MainPort.Abluft.SetHigh | src/abluft.cpp:105-108 | HIGH with a new timer unless HIGH already |
| MainPort.Abluft.SwitchAus | src/abluft.cpp:110-128 | both outputs of AUS, only on a change |
| MainPort.Abluft.SwitchLow | src/abluft.cpp:130-148 | both outputs of LOW, only on a change |
| MainPort.Abluft.SwitchHigh | src/abluft.cpp:152-183 | both outputs of HIGH and a new thread with its time, or only what a failed creation leaves in thr_id |
| MainPort.Abluft.TimerExpires | src/abluft.cpp:309-325 | this thread fewer and the level of the setting |
| MainPort.Orient.Init | src/abluft.cpp:264-273 | the output of the remembered state |
| MainPort.Orient.An | src/abluft.cpp:275-282 | state and output on |
| MainPort.Orient.Aus | src/abluft.cpp:284-291 | state and output off |
| Garden.ValveTimers | src/abluft.cpp:388-442 | over every run without a late cancellation a valve is TIMER_AN if and only if a thread for it is live, exactly one; its output is on if and only if it is not AUS; no timed run outlasts its time |
| Garden.OpenValveStaysExactly | src/abluft.cpp:570-582 | in every reachable state, late cancellations included, an open valve that is left alone stays open for a time if and only if no thread of it is due before |
| Garden.LateCancellationIsLeftOver | src/abluft.cpp:396-405 | a thread whose cancellation came too late is still pending, with its time, at the next opening |
| Garden.StepFair | src/abluft.cpp:388-442 | outputs, recorded threads and their times stay consistent even with late cancellations |
| Garden.StartKeepsTimedRun | src/abluft.cpp:392-393 | a START never turns a timed run into an untimed one |
| Garden.TimedRunStarts | src/abluft.cpp:530-551 | a timed run starts with dauer * 60 seconds, and only on a closed valve and a positive duration |
| Garden.InitOutputs | src/abluft.cpp:359-374 | re-initialising writes every output from its state |
| Garden.ValveFollows | src/abluft.cpp:388-442 | after any run a valve is closed or open as it is told, for its time if it was open for a time, and everything else stays; the wire shows it |
| Garden.SocketFollows | src/abluft.cpp:444-460 | the socket becomes what it is told, and the valves and their timers stay |
| Garden.ExpiryCloses | src/abluft.cpp:570-582 | a thread that expires closes its valve, however it was opened, and is gone |
| Garden.FailedStart | src/abluft.cpp:544-548 | without a thread the valve stays closed |
| Garden.Bytes | src/abluft.cpp:404-409 | the very bytes on the wire for closed, open and the socket |
| Garden.Terrasse.SetVentil_1 | src/abluft.cpp:388-414 | state, output and cancellation of the first valve |
| Garden.Terrasse.SetVentil_2 | src/abluft.cpp:416-442 | state, output and cancellation of the second valve |
| Garden.Terrasse.SetSteckdose | src/abluft.cpp:444-460 | state and output of the socket |
| Garden.Terrasse.StartVentilTimer | src/abluft.cpp:530-551 | guards, thread creation and TIMER_AN |
| Garden.Terrasse.TimerExpires | src/abluft.cpp:570-582 | the valve is closed and the thread gone |
| DuplicateFilter.FilterEqualsHistory | src/e6udpserver.cpp:112-150 | outside the restart branch a packet of a known client is passed on if and only if its count is not among the client's last five accepted ones since the last reset (and is not -1 before five were accepted) |
| DuplicateFilter.AcceptedCountsSpread | src/e6udpserver.cpp:129-146 | any six consecutive accepted counts between resets are pairwise distinct, and the pointer stays in the ring |
| DuplicateFilter.RingHolds | src/e6udpserver.cpp:65-76 | the ring holds the recent counts, and -1 until it is full |
| DuplicateFilter.RestartReadmitsAll | src/e6udpserver.cpp:117-127 | after any run in which a client takes the restart branch, the next packet of every other known client, outside its own restart branch, is passed on if and only if its count is not -1 |
| DuplicateFilter.RestartReadmitsCopies | src/e6udpserver.cpp:117-127 | for example a copy that was just turned away |
| DuplicateFilter.OneRestartAtATime | src/e6udpserver.cpp:117-137 | after any run a client that took the restart branch does not take it again until its timer or enableReboot enables it, and a copy of its restart packet right behind it is turned away |
| DuplicateFilter.RestartIsAccepted | src/e6udpserver.cpp:117-127 | a restart packet is passed on and starts the history of its client |
| DuplicateFilter.EnableChangesOneFlag | src/e6udpserver.cpp:52-63 | enableReboot and the timer set the flag of that client and change nothing else |
| DuplicateFilter.TurnedAwayWithoutTrace | src/e6udpserver.cpp:112-153 | packets of unknown senders and copies are turned away and change nothing |
| DuplicateFilter.E6UdpServer.Recv | src/e6udpserver.cpp:112-153 | the search loops in place decide and note as specified |
| DuplicateFilter.E6UdpServer.ResetPacketCounter | src/e6udpserver.cpp:65-76 | clears the rings and pointers of all clients |
| DuplicateFilter.E6UdpServer.EnableReboot | src/e6udpserver.cpp:52-63 | enables the restart branch of the first client with the address |
| DuplicateFilter.E6UdpServer.RebootTimer | src/e6udpserver.cpp:166-178 | enables it again after the minute |
| StatusDocument.UpdateIsFieldUpdate | src/sharedMem.cpp:32-51 | the find and replace on the flat text is the update of one field of the document |
| StatusDocument.PutGet | src/sharedMem.cpp:44-46 | the field has the new value and every other tag its old one |
| StatusDocument.GetPut | src/sharedMem.cpp:44-46 | writing back what a field holds changes nothing |
| StatusDocument.PutPut | src/sharedMem.cpp:44-46 | the last of two writes counts |
| StatusDocument.ParseRender | src/haussteuerung.cpp:256-261 | the flat text determines the document |
| StatusDocument.TagIsFound | src/sharedMem.cpp:44-45 | string::find finds a tag at its own piece and nowhere earlier |
| StatusDocument.UpdateIsExact | src/sharedMem.cpp:44-47 | an update of a document gives its tag the new value and leaves every other tag its text if and only if the tag is there with its closing tag, or nothing, right behind its text, and the result has at most 1024 characters |
| StatusDocument.UnknownTagDestroys | src/sharedMem.cpp:44-46 | all cases of an unknown tag: throws on a text shorter than the tag; else the text from position length - 1 on is lost, up to the closing tag if that stands behind |
| StatusDocument.SharedMem.Update | src/sharedMem.cpp:32-51 | the copy-out, replace, cut to 1024 characters and copy-back on the segment; an exception of replace leaves the text as it was |
| StatusTemplate.DocumentHoldsLastValues | src/haussteuerung.cpp:256-261 | whatever the devices write in whatever order, the text is the template with the last value of every field, and no update fails |
| StatusTemplate.DocIsDocument | src/haussteuerung.cpp:256-261 | the template has pairwise different tags, so the update laws apply to it |
| StatusTemplate.DocFits | include/hs_config.h:85 | with the widest values the text has at most 1010 characters and fits with its NUL |

## Left out

- Sockets, the ECMD exchange, `select`, file handles, and the set-up of shared memory and semaphores: foreign calls.
- `socket.cpp`, `ds1631_ts.cpp`, `temp.cpp`, `E6TcpClient`, the MAX7311 beyond its relay image: thin command wrappers.
- The message queue's text coding: it depends on stale bytes of the receive buffer.
- `limitFileSize`, `countLines`, the rain file scans, `stringReplace`, `sunTime`, `Hauscode`, `GuiTcpServer`, `tempControlHWR`, the HWR fan, the LED pins: they would only add easy members or floating-point formulas.
- Deadlock freedom between the configuration semaphore and the object locks, and interleavings inside `JALOUSIE::init`, `Abluft::init` and the valve setters, which do not hold their lock: the code does not guarantee them, and the model takes each as one step.
- The time in which a restarted board has lost its outputs: a restart and the re-initialisation are one step.
- Memory exhaustion, overflow of `int` sizes, durations and counters, and strings too long for the fixed C buffers other than the line buffer.
- The semaphore that stays locked when `string::replace` throws.
- IniExact.RoundTripExactly: is about dictionaries whose names, values and printed lines each fit into one line of the 1024 byte buffer; longer lines are cut by fgets, and a section name with a line break can come back although its header takes two lines.
- IniSurvival.FirstSaveExactly: is about files whose header names have no colon.
- BlindMotion.PositionClaimsAreSound: is about effective cancellation and expiries in one step; BlindHeights drops the second and says exactly what the first is needed for.
- BlindHeights.HeightsAgreeExactly: boards do not lose power in the middle of a drive.
- BlindSun.SunDriveEndsInTheGap: is about runs without commands in which timers are served when they are due and threads can be created.
- Garden.ValveTimers: is about runs without a late cancellation; Garden.OpenValveStaysExactly says what the others can do.
- Weather.Wetter.WetterSteuerung: loading the settings is a parameter, and the threads of the blinds do not run between the commands of one tick.
