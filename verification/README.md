# Binlog capture: a verified model

This project models four parts of the MySQL/MariaDB binlog capture program and proves properties of
them. `dafny verify dfyconfig.toml` checks everything.

**The capture pipeline.** A listener thread reads a pipe in chunks into one fixed buffer, cuts lines
in place, appends them to a rotating chain of capture files, and moves a checkpoint on marker lines.
The main thread starts read rounds from that checkpoint.

- `Splitting` says what cutting a stream at its line feeds means. `LineCutter` is the buffer itself:
  an array edited in place, compacted when full, with the spill of an over-long column line. Its
  `Run` proves that, however the pipe chops the stream, the lines handed over are the stream's lines
  and the captured bytes are the stream through its last line feed.
- `Markers` prints and parses the marker lines, `Listener` is what one line does to the thread's
  state, `ListenerThread` is the line handler over its variables. `RowReading` says over sequences of
  lines when a row is opened, read, ended and skipped; `LongColumn` uses it to show that a row with an
  over-long column fits the buffer.
- `CaptureChain` is the chain of capture files and their marks, `CaptureNames` the order of their names
  and the number read back from one.
- `ServerLog` and `Protocol` put the two threads, the pipe, the growing server logs and crashes into
  one state machine; `MarkerLines` ties its lines to the printed text and to the line handler.
  `ProtocolProof` proves that every run captures at least once; `ProtocolLimits` proves that this holds
  exactly when lines are flushed before they are acted on, no read stops short, offsets fit in a long
  and lines fit in the buffer; `ClosingText` is about the text behind a closing event's marker.
  `RoundOrder` proves the order of the saved positions over the same runs for rounds that start clean,
  `RoundStart` that rounds do if every wait ends by its signal, and `RoundLimits` that positions are
  saved in order exactly then, if offsets fit in a long. `RoundEnd` is about how a round ends and where
  the next one starts, `RoundReach` about how far a round gets, and `RecordKept` about the record that
  a restart reads on from.
  `Scenarios` puts together the runs that the limits need.

**The binary codec.** `BinaryCodec` is the offset-plus-escape encoder and the decoder, with the
counting argument behind the size bound; `BinaryText` is its text byte by byte; `BinaryObject` is the object that flips its one buffer
between the two representations.

**The shell's printers and parsers.** `Csv`, `CsvRoundTrip` and `CsvFields` (section 2 of RFC 4180; the last is
about fields that the printer does not write), `CQuoting` and `Tokenizer` (C strings, the dot-command tokenizer and the in-place unescaper), `SqlQuoting`;
`Doubling` is the doubling of quotes that CSV and SQL share.

**The binlog reader.** `DumpStream` (offset accounting) and `DumpedLog` (its files are the state
machine's logs), `EventFilter` (the latching range filter), `LoadTable` (temporary files of LOAD
DATA), `Flashback` (statement reversal).

## What the proofs found

- The listener acts on a COMMIT or QUERY marker, and saves its end position, before the event's own
  text has come through the pipe: the reader prints the marker first and the text when the event is
  released. So every event before a held position has been captured whole, except that the text of a
  closing event may be missing in two cases: it ends exactly at that position, or it ended at the
  record when the process died. Only the second loses the text (`ClosingText.ClosingTextMayBeLost`).
  All runs keep all events whole exactly when, besides what at-least-once capture needs, closing
  events print no text (`ClosingText.WholeExactly`).
- With the default setting (no flush) the record on disk can be ahead of the capture files after a
  crash (`ProtocolLimits.UnflushedCaptureLoses`). After a failed read the main thread still goes on to
  the next file, and a commit there takes the record past the lost events
  (`ProtocolLimits.ShortReadLoses`).
- An offset at or above 2^31 does not survive the trip through the marker lines: it comes back as
  2^31 - 1, which is no event's boundary, and is saved as such (`ProtocolLimits.FarOffsetLoses`). The
  round-trip lemmas state the exact bound.
- A line that fits neither the buffer nor the exception for column data is dropped, and the progress
  goes past its event all the same (`ProtocolLimits.LongLineLoses`).
- When the main thread gives up waiting for the end of a round, the next one sets the progress while
  lines of the last are still to be handled, and a lower position can be saved after a higher one
  (`RoundLimits.LaggingListenerSavesLower`). Both are covered.
- The signal of a round that was given up stays set and ends the wait of the next one, whose successor
  then starts where the first one ended, behind the listener's progress (`RoundLimits.StaleSignal`): it
  reads again what was read. A signal hands over the progress exactly if no wait was given up before
  it (`RoundLimits.HandOverExactly`).
- A restart looks for the number of a capture file behind the first `_capture_` of its name. It finds
  the ten digits of every file exactly when the base name with an underscore behind it does not hold
  `_capture_` itself (`CaptureNames.NumberIsFoundExactly`).
- The CSV reader keeps its separators as signed chars: it never finds a separator from byte 128 up,
  and takes byte 255 for the end of the file. CSV output does not quote cells for the row separator,
  so a row separator outside the shell's table of quoted bytes cuts cells.
  `CsvRoundTrip.SettingsThatWork` says exactly which separator settings round-trip.
- The comment on `resolve_backslashes` lists an escape for the space character; the code has none
  (`CQuoting.NoEscapeForSpace`), and the model follows the code.

## Assumptions

- The pipe is a FIFO of bytes without a 0 byte; the server is a list of growing logs, none of which is
  purged while it is needed. Reads and writes of the shared sequences, and writes of the record, are
  atomic. Text lines do not imitate markers, also where a line that is too long is cut, and binlog names
  and the dates in the capture files' marks hold no separator character.
- In row format a query event only closes a group, and the server's start position lies between groups.
- The buffers have one spare cell: when a read fills the space exactly, the terminator goes there.
- The line buffer is at least twice as long as the largest read (33 KB and 2 KB by default).
- A character is one byte of the stream; a char is signed and a long has 32 bits, as on the program's
  platform. Counters and sizes do not wrap.
- A file flushed by the process survives the process. In the state machine a line is captured as a
  whole; the two parts of a spilled line are the subject of `LineCutter`.

## Model

| member | source | states |
|---|---|---|
| ProtocolProof.CaptureIsAtLeastOnce | ddMySqlBinLogCapture/ddMySqlBinLogCapture.cpp:2503-2776 | lines being flushed first, reads complete, offsets below 2^31 and lines fitting the buffer, over every run of server, both threads, timeouts, stale signals and crashes: every event before a position in memory is captured, and before the record on what a crash leaves; whole, except for the text of a closing event that ends at the position or ended at the record when the process died |
| ProtocolProof.WholeUntilItDies | ddMySqlBinLogCapture/ddMySqlBinLogCapture.cpp:1687-1689 | in a run without crashes every event before a held position is whole, except perhaps a closing event that ends at it |
| ProtocolProof.CutWhereDied | ddMySqlBinLogCapture/ddMySqlBinLogCapture.cpp:1466-1495 | the places where text may stay missing are the records at the steps where the process died, and no others |
| ProtocolLimits.AtLeastOnceExactly | ddMySqlBinLogCapture/ddMySqlBinLogCapture.cpp:1687-1689 | every run captures at least once, in that sense, if and only if lines are flushed before they are acted on, no read stops short of its file's end, every offset fits in a long, and every line fits in the buffer or is column data |
| ClosingText.WholeExactly | ddMySqlBinLogCapture/ddMariadb-Binlog-Lib/patched-mySqlBinlog-10_3_23/ddmysqlbinlog.cc:1670-1757 | every event before a held position is whole in every run if and only if, besides, closing events print no text after their marker |
| ProtocolLimits.UnflushedCaptureLoses | ddMySqlBinLogCapture/ddMySqlBinLogCapture.cpp:1689-1698 | without the flush, a run after which the record on disk is past a transaction that is not on disk |
| ProtocolLimits.FarOffsetLoses | ddMySqlBinLogCapture/ddMySqlBinLogCapture.cpp:1928-1951 | with an offset past the largest long, a run whose record is no event's boundary |
| ProtocolLimits.LongLineLoses | ddMySqlBinLogCapture/ddMySqlBinLogCapture.cpp:2134-2139 | with a line that does not fit, a run whose progress is past an event that was dropped |
| MarkerLines.MarkerIsParsed | ddMySqlBinLogCapture/ddMariadb-Binlog-Lib/patched-mySqlBinlog-10_3_23/ddmysqlbinlog.cc:1190-1699 | the marker of an event in the state machine is the listener's parse of the line the reader prints for it, whatever its offsets and wherever a query's text cuts it |
| MarkerLines.NamesAreParsed | ddMySqlBinLogCapture/ddMySqlBinLogCapture.cpp:1975-2026 | so is every other line the main thread and the reader print around files and rounds: START, END, FIRST and LAST |
| MarkerLines.ListenIsSpelled | ddMySqlBinLogCapture/ddMySqlBinLogCapture.cpp:1751-2062 | acting on a line over numbered files is acting on it over their names, which is what the line handler does |
| ProtocolLimits.ShortReadLoses | ddMySqlBinLogCapture/ddMySqlBinLogCapture.cpp:2648-2662 | when a read may fail, a run after which the next process starts from a record past events of which nothing was captured |
| ClosingText.ClosingTextMayBeLost | ddMySqlBinLogCapture/ddMariadb-Binlog-Lib/patched-mySqlBinlog-10_3_23/ddmysqlbinlog.cc:1670-1757 | even with the flush, a run after which the next round starts past a commit whose text was never captured |
| ClosingText.TextIsBehind | ddMySqlBinLogCapture/ddMySqlBinLogCapture.cpp:1907-1951 | a run whose progress stands at the end of a commit whose text is still in the pipe |
| ProtocolProof.StepKeepsInv | ddMySqlBinLogCapture/ddMySqlBinLogCapture.cpp:2607-2773 | every atomic step of either thread, of the server, or of a crash keeps the invariant that ties pipe, positions and captured lines together |
| ProtocolProof.OpeningIsPossible | ddMySqlBinLogCapture/ddMySqlBinLogCapture.cpp:2633-2648 | a file is always opened at an event boundary, so reading never blocks on a position |
| ProtocolProof.EmitLineGood | ddMySqlBinLogCapture/ddMySqlBinLogCapture.cpp:1907-1972 | at the moment a marker enters the pipe, the position it announces is between transactions and everything before it is captured or in the pipe ahead of it |
| ProtocolProof.HandlePositions | ddMySqlBinLogCapture/ddMySqlBinLogCapture.cpp:1754-2062 | acting on a line moves the three positions only to where one of them was or to what the line announces |
| ProtocolProof.CrashStep | ddMySqlBinLogCapture/ddMySqlBinLogCapture.cpp:1466-1495 | a restart from the record on disk is covered by the flushed capture |
| RecordKept.RoundsAreRecorded | ddMySqlBinLogCapture/ddMySqlBinLogCapture.cpp:2582-2589 | over every run, whatever goes wrong in it, a record is on disk as long as a round is under way |
| RecordKept.RestartReadsOn | ddMySqlBinLogCapture/ddMySqlBinLogCapture.cpp:1466-1495 | a process that dies during a round and is started again chooses no new start, and its next round can begin, and begins at the record |
| ServerLog.GoodMeansCovered | ddMySqlBinLogCapture/ddMySqlBinLogCapture.cpp:2556-2571 | a good position promises, in file offsets alone, that every event before it is captured |
| DumpedLog.DumpIsWhatIsPrinted | ddMySqlBinLogCapture/ddMariadb-Binlog-Lib/patched-mySqlBinlog-10_3_23/ddmysqlbinlog.cc:2893-2947 | when the state machine's reader opens a file, the dump from that position hands out exactly the events it prints from then on, at their offsets and with their ends |
| DumpedLog.OpeningIsDetermined | ddMySqlBinLogCapture/ddMariadb-Binlog-Lib/patched-mySqlBinlog-10_3_23/ddmysqlbinlog.cc:2809 | the reader has no choice which event a position is before |
| RoundLimits.RoundsAscendExactly | ddMySqlBinLogCapture/ddMySqlBinLogCapture.cpp:1754-1763 | in every round of every run the saved positions never go back, not even behind the round's start, and are positions between transactions, if and only if every wait for the end of a round ends by its signal and every offset fits in a long |
| RoundStart.SignalledRoundsStartClean | ddMySqlBinLogCapture/ddMySqlBinLogCapture.cpp:2682-2701 | over every run in which no wait ended otherwise than by the signal, nothing printed before a round sets the progress can still move it |
| RoundOrder.SavedPositionsAscend | ddMySqlBinLogCapture/ddMySqlBinLogCapture.cpp:1754-1763 | on every run, from a round's setting of the progress with nothing left to handle that moves it, until the next round, start or crash: the saved positions never go back, and each is the round's start, a file header, a BEGIN, or the end of a COMMIT or QUERY |
| RoundOrder.RecordAscends | ddMySqlBinLogCapture/ddMySqlBinLogCapture.cpp:2627-2629 | in the same stretch the record on disk, once saved, never goes back |
| RoundLimits.LaggingListenerSavesLower | ddMySqlBinLogCapture/ddMySqlBinLogCapture.cpp:2773 | a run that gives up a wait, starts a round with lines still in the pipe and saves a lower position after a higher one |
| RoundLimits.FarRoundDescends | ddMySqlBinLogCapture/ddMySqlBinLogCapture.cpp:1876-1951 | a round that starts past what a long can hold and saves a position behind its start |
| RoundOrder.SavesAreTheRecord | ddMySqlBinLogCapture/ddMySqlBinLogCapture.cpp:1500-1512 | after every run the record is the last position saved |
| RoundEnd.StartIsHandedOver | ddMySqlBinLogCapture/ddMySqlBinLogCapture.cpp:2046-2057 | step by step, the next start changes only when it is chosen, read from the record, handed over by the listener on a LAST line that names its file, or taken from the progress after a wait that was given up |
| RoundEnd.SignalHandsOver | ddMySqlBinLogCapture/ddMySqlBinLogCapture.cpp:2057 | over every run whose waits end by their signal: when the end of a round is signalled, the next start is the progress |
| RoundEnd.WaitCanEnd | ddMySqlBinLogCapture/ddMySqlBinLogCapture.cpp:2682-2714 | over the same runs: with nothing left to handle, the wait for the end of a round can end |
| RoundEnd.SignalledRoundLoads | ddMySqlBinLogCapture/ddMySqlBinLogCapture.cpp:2556-2571 | over the same runs: the next round loads the progress as it stood when the wait ended |
| RoundEnd.GivenUpRoundLoads | ddMySqlBinLogCapture/ddMySqlBinLogCapture.cpp:2773 | after a wait that was given up, the next round loads the progress as it stood then, unless the listener has handled a LAST line since; then as it stood at some moment since |
| RoundReach.RoundCatchesUp | ddMySqlBinLogCapture/ddMySqlBinLogCapture.cpp:2606-2701 | a round whose end is signalled has got past every closing event, from its start on, that the files it was told of held when it set the progress, and the next one starts there |
| RoundLimits.HandOverExactly | ddMySqlBinLogCapture/ddMySqlBinLogCapture.cpp:2682-2773 | in every wait of every run the signal hands over the progress if and only if no wait is ever given up |
| RoundLimits.StaleSignal | ddMySqlBinLogCapture/ddMySqlBinLogCapture.cpp:2714-2773 | with a wait given up, a run in which the first round's signal ends the second's wait and the next start is behind the progress |
| Listener.FlagsAlwaysNest | ddMySqlBinLogCapture/ddMySqlBinLogCapture.cpp:1754-1974 | over every sequence of lines: data in progress implies query in progress implies start of statement |
| RowReading.RowIsRead | ddMySqlBinLogCapture/ddMySqlBinLogCapture.cpp:1787-1870 | over every sequence of lines with a file started and a statement announced since: an INSERT, UPDATE or DELETE line and then WHERE or SET make the listener read data, and it does through any number of column lines |
| RowReading.RowEnds | ddMySqlBinLogCapture/ddMySqlBinLogCapture.cpp:1754-1763 | the next line that is not column data ends the row and saves the progress; the row stays open only behind an update's old values |
| RowReading.UpdateGoesOn | ddMySqlBinLogCapture/ddMySqlBinLogCapture.cpp:1795-1806 | an update's new values are read after its old ones |
| RowReading.RowIsSkippedExactly | ddMySqlBinLogCapture/ddMySqlBinLogCapture.cpp:1852-1870 | a row is opened if and only if a file has been started since FIRST, or the statement is not at the round's start, or the count of rows since the last BEGIN, COMMIT or QUERY is past the one there |
| RowReading.StatementIsOpen | ddMySqlBinLogCapture/ddMySqlBinLogCapture.cpp:1907-1926 | a statement counts as announced if and only if a STMT line came and no COMMIT since |
| RowReading.FileIsStarted | ddMySqlBinLogCapture/ddMySqlBinLogCapture.cpp:1975-2026 | the file count is positive if and only if a START line came and no FIRST since |
| LongColumn.LongColumnFits | ddMySqlBinLogCapture/ddMySqlBinLogCapture.cpp:2109-2139 | after any lines that leave a file started and a statement announced, a printed INSERT with one column longer than the buffer fits it however the reads fall, if the column overflows it once |
| ListenerThread.Thread.Dispatch | ddMySqlBinLogCapture/ddMySqlBinLogCapture.cpp:1751-2062 | the line handler over its variables is the step function on the parsed line, and reports when the column branch ran |
| LineCutter.Run | ddMySqlBinLogCapture/ddMySqlBinLogCapture.cpp:1663-2168 | for every way the pipe chops the stream: the lines handled are the stream's lines, the captured bytes are the stream through its last line feed plus the head of a column line still being read, the state is the fold over the lines' classes |
| LineCutter.Cutter.Feed | ddMySqlBinLogCapture/ddMySqlBinLogCapture.cpp:1674-2156 | one read: the unfinished line continues, its lines are handled, and every byte read is captured or still in the buffer |
| LineCutter.Cutter.Scan | ddMySqlBinLogCapture/ddMySqlBinLogCapture.cpp:1680-2092 | the inner loop reaches the terminator having cut exactly the lines of the text it scanned |
| LineCutter.Cutter.EndOfLine | ddMySqlBinLogCapture/ddMySqlBinLogCapture.cpp:1683-2079 | a line feed captures the line's remaining bytes, hands over the line or its spilled head, and leaves what follows in the buffer |
| LineCutter.Cutter.HandSpilled | ddMySqlBinLogCapture/ddMySqlBinLogCapture.cpp:1720-1792 | the end of a spilled line: what follows fits the saved-line buffer, the head is handed over, and what follows is resumed with nothing lost or repeated |
| LineCutter.Cutter.Compact | ddMySqlBinLogCapture/ddMySqlBinLogCapture.cpp:2101-2156 | a full buffer keeps the unfinished line, in the buffer or captured, exactly when the line can be moved or is column data; otherwise it is dropped |
| LineCutter.Cutter.Spill | ddMySqlBinLogCapture/ddMySqlBinLogCapture.cpp:2111-2132 | the head of a column line is captured byte for byte and kept aside |
| LineCutter.Cutter.Deposit | ddMySqlBinLogCapture/StdOutRedirect.h:72-81 | a read lands behind the unfinished line with its terminator at most at the spare cell |
| LineCutter.ShortLinesFit | ddMySqlBinLogCapture/ddMySqlBinLogCapture.cpp:2101-2109 | a stream whose lines and tail are at most the buffer less two reads never overflows it |
| LineCutter.ShortLinesAreExact | ddMySqlBinLogCapture/ddMySqlBinLogCapture.cpp:1740-1748 | short lines are handed over exactly as they are |
| LineCutter.GivenMeansTheSame | ddMySqlBinLogCapture/ddMySqlBinLogCapture.cpp:1728-1735 | a spilled line's head means the same to the handler as the whole line |
| LineCutter.NoSpillWhileShort | ddMySqlBinLogCapture/ddMySqlBinLogCapture.cpp:2107-2112 | nothing is captured ahead of its line feed while the unfinished line is short |
| Splitting.SplitIsUnique | ddMySqlBinLogCapture/ddMySqlBinLogCapture.cpp:1680-1686 | there is one way to cut a text at its line feeds, and it is the specification's |
| Splitting.SplitContinues | ddMySqlBinLogCapture/ddMySqlBinLogCapture.cpp:2101-2156 | cutting goes on from the unfinished line alone |
| CaptureChain.Chain.constructor | ddMySqlBinLogCapture/ddMySqlBinLogCapture.cpp:2965-3029 | a clean restart closes the newest file with the next number and starts that file; the captured text is unchanged |
| CaptureChain.Chain.WriteLine | ddMySqlBinLogCapture/ddMySqlBinLogCapture.cpp:1686-1718 | appends to the captured text, and rotates exactly when the open file is then over the limit; the file closed is over it by this line alone |
| CaptureChain.Chain.WriteHead | ddMySqlBinLogCapture/ddMySqlBinLogCapture.cpp:2113-2126 | a spilled head is captured without looking at the limit, so no line is split across files |
| CaptureChain.Chain.Rotate | ddMySqlBinLogCapture/ddMySqlBinLogCapture.cpp:3030-3131 | the closed file is opening mark, whole lines and end mark with the next number, over the limit only by its last line, which is recorded; the next file is started and nothing captured changes |
| CaptureChain.LineDone | ddMySqlBinLogCapture/ddMySqlBinLogCapture.cpp:1708-1718 | a completed line leaves whole lines, and an excess over the limit is due to that line alone |
| CaptureChain.RunChain | ddMySqlBinLogCapture/ddMySqlBinLogCapture.cpp:2945-3131 | over every sequence of heads, lines, rotations and clean restarts: files are numbered from 1 without a gap, each closed one is its marks around whole lines and is within the limit or over it by its last line alone, and the bodies together are exactly what was handed over; read field by field, every opening mark gives the file's own path and number, and every end mark its path and the number of the file behind it |
| CaptureChain.Chain.CanBeRestarted | ddMySqlBinLogCapture/ddMySqlBinLogCapture.cpp:2965-3029 | between two lines, what is on disk is what a restart can go on from |
| CaptureNames.NamesSortByNumber | ddMySqlBinLogCapture/ddMySqlBinLogCapture.cpp:2879-2942 | of two capture files the one with the higher number has the later name |
| CaptureNames.LastListedIsNewest | ddMySqlBinLogCapture/ddMySqlBinLogCapture.cpp:2862-2942 | the last file of a listing in name order is the one with the highest number |
| CaptureNames.NumberIsFoundExactly | ddMySqlBinLogCapture/ddMySqlBinLogCapture.cpp:2919-2923 | the digits of every file's number are found in its name if and only if the base name and an underscore do not hold the searched mark |
| CaptureNames.NumberReadFromName | ddMySqlBinLogCapture/ddMySqlBinLogCapture.cpp:2918-2923 | the number read back from a name whose digits are found is the file's exactly while it fits in a long |
| Markers.BeginRoundTrip | ddMySqlBinLogCapture/ddMariadb-Binlog-Lib/patched-mySqlBinlog-10_3_23/ddmysqlbinlog.cc:1699 | a printed BEGIN line selects its branch and gives back its sequence number, and its positions exactly when they are below 2^31 |
| Markers.StmtRoundTrip | ddMySqlBinLogCapture/ddMariadb-Binlog-Lib/patched-mySqlBinlog-10_3_23/ddmysqlbinlog.cc:1611 | the same for STMT lines |
| Markers.CommitRoundTrip | ddMySqlBinLogCapture/ddMariadb-Binlog-Lib/patched-mySqlBinlog-10_3_23/ddmysqlbinlog.cc:1688 | the same for COMMIT lines and their transaction id |
| Markers.QueryRoundTrip | ddMySqlBinLogCapture/ddMariadb-Binlog-Lib/patched-mySqlBinlog-10_3_23/ddmysqlbinlog.cc:1190 | the same for QUERY lines, whatever the query text and wherever a line feed cuts it |
| Markers.StartRoundTrip | ddMySqlBinLogCapture/ddMariadb-Binlog-Lib/patched-mySqlBinlog-10_3_23/ddmysqlbinlog.cc:3486 | a START_BINLOG line gives back the file name |
| Markers.FirstRoundTrip | ddMySqlBinLogCapture/ddMySqlBinLogCapture.cpp:2623-2625 | a FIRST_BINLOG line gives back the file name |
| Markers.LastRoundTrip | ddMySqlBinLogCapture/ddMySqlBinLogCapture.cpp:2672 | a LAST_BINLOG line is read as one, whatever its fields |
| Markers.EndRoundTrip | ddMySqlBinLogCapture/ddMariadb-Binlog-Lib/patched-mySqlBinlog-10_3_23/ddmysqlbinlog.cc:3565 | an END_BINLOG line is read as one |
| Markers.BeginWithoutNumber | ddMySqlBinLogCapture/ddMySqlBinLogCapture.cpp:1893-1903 | a BEGIN line without a sequence number gives back its positions and the number 0 |
| Markers.MalformedExactly | ddMySqlBinLogCapture/ddMySqlBinLogCapture.cpp:1876-1972 | a BEGIN, STMT or QUERY line lacks a field if and only if fewer than two separators are behind its tag; a COMMIT line, fewer than three |
| Markers.InsertSelects | ddMySqlBinLogCapture/ddMySqlBinLogCapture.cpp:1807-1813 | a line that starts with the tag selects its own branch, whatever follows |
| Markers.UpdateSelects | ddMySqlBinLogCapture/ddMySqlBinLogCapture.cpp:1814-1820 | the same |
| Markers.DeleteSelects | ddMySqlBinLogCapture/ddMySqlBinLogCapture.cpp:1821-1827 | the same |
| Markers.WhereSelects | ddMySqlBinLogCapture/ddMySqlBinLogCapture.cpp:1795-1800 | the same |
| Markers.SetSelects | ddMySqlBinLogCapture/ddMySqlBinLogCapture.cpp:1801-1806 | the same |
| Markers.OtherTextIsText | ddMySqlBinLogCapture/ddMySqlBinLogCapture.cpp:2069-2077 | a line that starts with neither tag is text |
| Markers.ColumnSelects | ddMySqlBinLogCapture/ddMySqlBinLogCapture.cpp:1773-1794 | a column line is one, whatever its number and value |
| Decimal.AtolPrint | ddMySqlBinLogCapture/ddMySqlBinLogCapture.cpp:554-560 | a printed number is read back exactly when it fits in a long |
| Decimal.AtolReads | ddMySqlBinLogCapture/ddMySqlBinLogCapture.cpp:554-560 | with blanks and a sign before a number and anything but a digit behind it, the nearest value a long can hold is read |
| Decimal.AtolOfText | ddMySqlBinLogCapture/ddMySqlBinLogCapture.cpp:554-560 | a text that begins with no blank, sign or digit is read as 0 |
| BinaryCodec.Encode | ddMySqlBinLogCapture/patched-sqlite-wrapper-3.14.1/CppSQLite3.cpp:1634-1674 | writes the encoding under the best offset and its terminator in any buffer with room |
| BinaryCodec.BestOffset | ddMySqlBinLogCapture/patched-sqlite-wrapper-3.14.1/CppSQLite3.cpp:1642-1655 | the search always assigns an offset, the smallest of those with the fewest escapes among the 254 allowed |
| BinaryCodec.CountBytes | ddMySqlBinLogCapture/patched-sqlite-wrapper-3.14.1/CppSQLite3.cpp:1642-1643 | the table counts each byte value's occurrences |
| BinaryCodec.SumEscapesBound | ddMySqlBinLogCapture/patched-sqlite-wrapper-3.14.1/CppSQLite3.cpp:1645-1655 | summed over all allowed offsets, n bytes need at most 3n escapes |
| BinaryCodec.LeastEscapesBound | ddMySqlBinLogCapture/patched-sqlite-wrapper-3.14.1/CppSQLite3.cpp:1625-1633 | the fewest escapes are at most 3n/254 |
| BinaryCodec.EncodingMeetsItsPromise | ddMySqlBinLogCapture/patched-sqlite-wrapper-3.14.1/CppSQLite3.cpp:1619-1633 | the text has no terminator and no quote, is at most 2 + 257n/254 bytes with its terminator, and decodes to the input |
| BinaryCodec.EncodingIsUnique | ddMySqlBinLogCapture/patched-sqlite-wrapper-3.14.1/CppSQLite3.cpp:1645-1655 | an input has one encoding |
| BinaryCodec.DocumentedSizeHasRoom | ddMySqlBinLogCapture/patched-sqlite-wrapper-3.14.1/CppSQLite3.cpp:256-266 | the documented size, hence what the allocator reserves, is room for any bytes |
| BinaryCodec.ReencodingIsNoLonger | ddMySqlBinLogCapture/patched-sqlite-wrapper-3.14.1/CppSQLite3.cpp:1645-1674 | decoding quote-free text and encoding again never makes it longer |
| BinaryCodec.EncodeDecodeBody | ddMySqlBinLogCapture/patched-sqlite-wrapper-3.14.1/CppSQLite3.cpp:1686-1706 | quote-free text is the encoding of what it decodes to, under its own offset |
| BinaryCodec.DecodeEncodeBody | ddMySqlBinLogCapture/patched-sqlite-wrapper-3.14.1/CppSQLite3.cpp:1656-1706 | decoding inverts encoding under every offset |
| BinaryCodec.DecodeArray | ddMySqlBinLogCapture/patched-sqlite-wrapper-3.14.1/CppSQLite3.cpp:1686-1706 | decoding is right also when input and output are one array, and returns -1 exactly on malformed text |
| BinaryText.ByteIsWritten | ddMySqlBinLogCapture/patched-sqlite-wrapper-3.14.1/CppSQLite3.cpp:1656-1671 | a byte is written as its distance from the offset, or as 1 and a number for the distances 0, 1 and 39 |
| BinaryText.ReadExactly | ddMySqlBinLogCapture/patched-sqlite-wrapper-3.14.1/CppSQLite3.cpp:1686-1706 | a text is decoded if and only if it can be cut into bytes other than 1 and pairs of 1 with 1, 2 or 3 |
| BinaryText.UnitsAreRead | ddMySqlBinLogCapture/patched-sqlite-wrapper-3.14.1/CppSQLite3.cpp:1686-1706 | such a text is decoded piece by piece |
| BinaryObject.Binary.SetBinary | ddMySqlBinLogCapture/patched-sqlite-wrapper-3.14.1/CppSQLite3.cpp:185-189 | the object stands for the bytes and has room to encode them |
| BinaryObject.Binary.SetEncoded | ddMySqlBinLogCapture/patched-sqlite-wrapper-3.14.1/CppSQLite3.cpp:192-210 | any text is kept as it is; well-formed quote-free text makes the object stand for what it decodes to, with room to encode that again |
| BinaryObject.Binary.GetEncoded | ddMySqlBinLogCapture/patched-sqlite-wrapper-3.14.1/CppSQLite3.cpp:213-225 | encodes in the same buffer, or leaves text that is encoded already as it is; the value is unchanged |
| BinaryObject.Binary.GetBinary | ddMySqlBinLogCapture/patched-sqlite-wrapper-3.14.1/CppSQLite3.cpp:228-246 | decodes in place; fails exactly on malformed text; the value is unchanged |
| BinaryObject.RunGetters | ddMySqlBinLogCapture/patched-sqlite-wrapper-3.14.1/CppSQLite3.cpp:213-253 | any sequence of getters leaves the value alone and never outgrows the buffer |
| Csv.OutputCell | ddMySqlBinLogCapture/patched-sqlite-wrapper-3.14.1/shell.c:856-883 | a cell is printed bare if it holds nothing to quote and no separator, else with its quotes doubled |
| Csv.OutputRow | ddMySqlBinLogCapture/patched-sqlite-wrapper-3.14.1/shell.c:1187-1192 | a row is its cells with the separator between them and the row separator behind them |
| Csv.ImportCtx.ReadField | ddMySqlBinLogCapture/patched-sqlite-wrapper-3.14.1/shell.c:2616-2675 | the reader over its context, with separators as signed chars, is the field function on the remaining input, and the text buffer always has room for its terminator |
| CsvRoundTrip.CellReadsBack | ddMySqlBinLogCapture/patched-sqlite-wrapper-3.14.1/shell.c:2616-2675 | a printed cell is read back unchanged, with its own ending as terminator |
| CsvRoundTrip.TableReadsBack | ddMySqlBinLogCapture/patched-sqlite-wrapper-3.14.1/shell.c:1179-1195 | a printed table is read back row by row and cell by cell, with the column separator after all but the last cell of a row and the row separator after that |
| CsvRoundTrip.SettingsThatWork | ddMySqlBinLogCapture/patched-sqlite-wrapper-3.14.1/shell.c:3454-3508 | over all separator strings: a setting round-trips all tables if and only if the column separator is one byte below 128 other than the quote, and the row separator is CRLF, with a column separator other than its bytes, or one byte below 128 other than the quote and the column separator that cells are quoted for |
| CsvRoundTrip.SomeTableIsLost | ddMySqlBinLogCapture/patched-sqlite-wrapper-3.14.1/shell.c:3507-3508 | for every other setting, a table that import refuses or reads back changed |
| CsvRoundTrip.ImportAll | ddMySqlBinLogCapture/patched-sqlite-wrapper-3.14.1/shell.c:3454-3525 | import refuses the settings it should and otherwise reads the file's rows, each ending with the first field that the column separator does not end |
| CsvFields.BareExactly | ddMySqlBinLogCapture/patched-sqlite-wrapper-3.14.1/shell.c:829-872 | over all separators and cells: a cell is printed as it is if and only if it is not empty, holds only visible ASCII other than the two quotes, and neither holds a separator of one byte nor starts with a longer one |
| CsvFields.UnterminatedField | ddMySqlBinLogCapture/patched-sqlite-wrapper-3.14.1/shell.c:2652-2657 | a quoted field that is never closed is all the text behind its opening quote |
| CsvFields.StrayQuote | ddMySqlBinLogCapture/patched-sqlite-wrapper-3.14.1/shell.c:2639-2660 | a single quote with no separator behind it closes nothing, and is kept with what follows |
| CsvFields.UnquotedField | ddMySqlBinLogCapture/patched-sqlite-wrapper-3.14.1/shell.c:2662-2672 | an unquoted field is the text up to the first separator or the end of the file, less a carriage return before a row separator |
| CsvFields.RowEndsWithFile | ddMySqlBinLogCapture/patched-sqlite-wrapper-3.14.1/shell.c:3580-3601 | a printed row whose end is missing is read whole, with or without a separator behind its last cell |
| CQuoting.OutputCString | ddMySqlBinLogCapture/patched-sqlite-wrapper-3.14.1/shell.c:762-788 | prints the escaped text between quotes, whatever counts as printable |
| CQuoting.ResolveBackslashes | ddMySqlBinLogCapture/patched-sqlite-wrapper-3.14.1/shell.c:2390-2432 | unescapes in place and touches nothing outside the string |
| CQuoting.UnescapeEscape | ddMySqlBinLogCapture/patched-sqlite-wrapper-3.14.1/shell.c:762-788 | unescaping inverts escaping for every text without a terminator |
| CQuoting.EscapesArePrinted | ddMySqlBinLogCapture/patched-sqlite-wrapper-3.14.1/shell.c:762-788 | a tab, line feed, carriage return, quote or backslash is printed as its escape, an unprintable byte as its number in three octal digits, any other as itself |
| CQuoting.LettersStandFor | ddMySqlBinLogCapture/patched-sqlite-wrapper-3.14.1/shell.c:2396-2416 | behind a backslash, the letters a, b, t, n, v, f and r stand for the bytes 7 to 13 in this order, and every byte that is no octal digit for itself |
| CQuoting.OctalStandsFor | ddMySqlBinLogCapture/patched-sqlite-wrapper-3.14.1/shell.c:2417-2427 | one, two or three octal digits, as many as there are, stand for their number modulo 256 |
| CQuoting.NoEscapeForSpace | ddMySqlBinLogCapture/patched-sqlite-wrapper-3.14.1/shell.c:2384-2432 | no letter stands for the space, although the comment lists one |
| Tokenizer.Tokenize | ddMySqlBinLogCapture/patched-sqlite-wrapper-3.14.1/shell.c:3092-3112 | cutting and unescaping in place leaves each argument, terminated, where its start points |
| Tokenizer.ArgumentsComeBack | ddMySqlBinLogCapture/patched-sqlite-wrapper-3.14.1/shell.c:3092-3112 | printed arguments come back unchanged, up to the limit of the argument array |
| Tokenizer.TokenizePrinted | ddMySqlBinLogCapture/patched-sqlite-wrapper-3.14.1/shell.c:3083-3112 | a command line of printed arguments is cut and unescaped in place into those arguments |
| Tokenizer.SingleComesBack | ddMySqlBinLogCapture/patched-sqlite-wrapper-3.14.1/shell.c:3095-3105 | nothing is unescaped between single quotes |
| Tokenizer.DoubleComesBack | ddMySqlBinLogCapture/patched-sqlite-wrapper-3.14.1/shell.c:3095-3105 | between double quotes text is unescaped, and a quote behind a backslash does not end it |
| Tokenizer.WordComesBack | ddMySqlBinLogCapture/patched-sqlite-wrapper-3.14.1/shell.c:3106-3111 | a bare word ends at the next blank and is unescaped |
| Tokenizer.UnclosedComesBack | ddMySqlBinLogCapture/patched-sqlite-wrapper-3.14.1/shell.c:3095-3105 | an argument that is never closed goes to the end of the line |
| Tokenizer.MixedArgumentsComeBack | ddMySqlBinLogCapture/patched-sqlite-wrapper-3.14.1/shell.c:3092-3112 | a line of printed, double-quoted, single-quoted and bare arguments, with any blanks between them, is cut into just these, up to the limit of the argument array |
| Tokenizer.TokenizeMixed | ddMySqlBinLogCapture/patched-sqlite-wrapper-3.14.1/shell.c:3083-3112 | the tokenizer leaves each argument of such a line where it says, fifty at most |
| DumpStream.Dump | ddMySqlBinLogCapture/ddMariadb-Binlog-Lib/patched-mySqlBinlog-10_3_23/ddmysqlbinlog.cc:2893-2947 | over any dump stream the handler is given exactly the events from the start on, in order, with their offsets, up to where it stops |
| DumpStream.OffsetsAreTrue | ddMySqlBinLogCapture/ddMariadb-Binlog-Lib/patched-mySqlBinlog-10_3_23/ddmysqlbinlog.cc:2595-2639 | each reported offset is the event's true file offset and the end position of the one before |
| DumpStream.RestartAtEndPosition | ddMySqlBinLogCapture/ddMariadb-Binlog-Lib/patched-mySqlBinlog-10_3_23/ddmysqlbinlog.cc:2809 | a dump restarted at an event's end position starts on the next event, and both dumps together give every event once |
| DumpStream.StartIsUnique | ddMySqlBinLogCapture/ddMariadb-Binlog-Lib/patched-mySqlBinlog-10_3_23/ddmysqlbinlog.cc:2809 | a start position determines the event it starts before |
| DumpStream.FormatEventAgain | ddMySqlBinLogCapture/ddMariadb-Binlog-Lib/patched-mySqlBinlog-10_3_23/ddmysqlbinlog.cc:2627-2638 | a dump from within a file hands out the format event first, at the start offset and without moving it |
| DumpStream.FormatEventOnce | ddMySqlBinLogCapture/ddMariadb-Binlog-Lib/patched-mySqlBinlog-10_3_23/ddmysqlbinlog.cc:2627-2638 | a dump from the start hands it out once, at its own offset |
| EventFilter.Read | ddMySqlBinLogCapture/ddMariadb-Binlog-Lib/patched-mySqlBinlog-10_3_23/ddmysqlbinlog.cc:1100-1131 | what is handled is exactly the considered events before the first considered one at or past a stop threshold |
| EventFilter.Filter.Process | ddMySqlBinLogCapture/ddMariadb-Binlog-Lib/patched-mySqlBinlog-10_3_23/ddmysqlbinlog.cc:1100-1131 | one event: the latch opens on the first event past both thresholds, and every event is counted |
| EventFilter.ConsideredIsASuffix | ddMySqlBinLogCapture/ddMariadb-Binlog-Lib/patched-mySqlBinlog-10_3_23/ddmysqlbinlog.cc:1100-1131 | what is considered is every format event, and from the first event past both thresholds on every event that is a rotation or of the server asked for |
| EventFilter.AllByDefault | ddMySqlBinLogCapture/ddMariadb-Binlog-Lib/patched-mySqlBinlog-10_3_23/ddmysqlbinlog.cc:1100-1131 | without options every event is handled |
| LoadTable.Processor.ProcessFirst | ddMySqlBinLogCapture/ddMariadb-Binlog-Lib/patched-mySqlBinlog-10_3_23/ddmysqlbinlog.cc:560-626 | an id's record becomes the new load, and no other file changes |
| LoadTable.Processor.ProcessAppend | ddMySqlBinLogCapture/ddMariadb-Binlog-Lib/patched-mySqlBinlog-10_3_23/ddmysqlbinlog.cc:688-726 | a block extends its id's file and no other, so files already handed out keep their bytes; a block for an unknown id changes nothing |
| LoadTable.Processor.GrabEvent | ddMySqlBinLogCapture/ddMariadb-Binlog-Lib/patched-mySqlBinlog-10_3_23/ddmysqlbinlog.cc:386-398 | takes a load exactly when Create_file began it, with all its bytes in its file |
| LoadTable.Processor.GrabName | ddMySqlBinLogCapture/ddMariadb-Binlog-Lib/patched-mySqlBinlog-10_3_23/ddmysqlbinlog.cc:415-428 | takes a load exactly when Begin_load_query began it, with all its bytes in its file |
| LoadTable.BytesSinceFirstBlock | ddMySqlBinLogCapture/ddMariadb-Binlog-Lib/patched-mySqlBinlog-10_3_23/ddmysqlbinlog.cc:560-726 | a load's bytes are its first block and its later blocks, whatever other ids do in between, and even if the other kind of execute event asks for it |
| LoadTable.TakenByItsKind | ddMySqlBinLogCapture/ddMariadb-Binlog-Lib/patched-mySqlBinlog-10_3_23/ddmysqlbinlog.cc:386-428 | the execute event of its own kind takes the load |
| LoadTable.TakenStaysTaken | ddMySqlBinLogCapture/ddMariadb-Binlog-Lib/patched-mySqlBinlog-10_3_23/ddmysqlbinlog.cc:386-428 | a load is taken at most once |
| Flashback.HandleStatement | ddMySqlBinLogCapture/ddMariadb-Binlog-Lib/patched-mySqlBinlog-10_3_23/ddmysqlbinlog.cc:939-1033 | a statement's row events are printed in exact reverse order, only the last printed carries the end flag, each is deleted once |
| Flashback.HandleLog | ddMySqlBinLogCapture/ddMariadb-Binlog-Lib/patched-mySqlBinlog-10_3_23/ddmysqlbinlog.cc:1587-1633 | over a whole log, statement by statement, with the deletions in log order and, the events being distinct objects, none twice |
| SqlQuoting.OutputQuoted | ddMySqlBinLogCapture/patched-sqlite-wrapper-3.14.1/shell.c:730-757 | the chunk-scanning printer is plain quote doubling |
| SqlQuoting.UndoubledDoubled | ddMySqlBinLogCapture/patched-sqlite-wrapper-3.14.1/shell.c:730-757 | un-doubling undoes it |
| SqlQuoting.SetTableName | ddMySqlBinLogCapture/patched-sqlite-wrapper-3.14.1/shell.c:1268-1299 | the precomputed length is exactly what is written |
| SqlQuoting.PlainNameExactly | ddMySqlBinLogCapture/patched-sqlite-wrapper-3.14.1/shell.c:1278-1284 | a name stands without quotes if and only if it is not empty, holds only letters, digits and underscores and begins with no digit |
| SqlQuoting.AppendText | ddMySqlBinLogCapture/patched-sqlite-wrapper-3.14.1/shell.c:1309-1344 | the precomputed length is exactly what is written |

## Left out

- LineCutter.Cutter.Feed: is stated for streams whose long lines are column data read in a row, with the equals sign in the part that fits, and overflow once; on other streams the source drops the line or replaces the saved head, which only `Compact` shows.
- LineCutter.Run: runs the listener alone, under the same conditions; the main thread's interleaved writes to the shared sequences are in `Protocol`, over whole lines.
- RoundOrder.SavedPositionsAscend: asks that nothing printed before the round still moves the progress when the round sets it; `RoundLimits.RoundsAscendExactly` says which runs have only such rounds.
- ProtocolLimits.LongLineLoses: of what happens to lines that do not fit, the state machine has the dropping of a query's marker or of a text line while no row is being read.
- CaptureChain.Chain.constructor: takes the directory as a chain left between two lines; a process stopped in the middle of a spilled line gets the end mark on that line.
- BinaryCodec.DecodeArray: asks for text that is not empty; on the empty string the source reads past the terminator.
- BinaryObject.Binary.GetBinary: asks the same of encoded text.
- CsvRoundTrip.ImportAll: reads rows of any length; matching them to the columns of a table is left out.
- DumpStream.Dump: leaves out reading on to the last log, raw mode, heartbeats and events older than binlog version 3.
- Flashback.HandleStatement: has no ignored tables, and printing does not fail.
- LoadTable.Processor.ProcessFirst: takes the unused file name as given; creating, writing or closing a file does not fail.
- The main thread's exit path, its duration records and the row and transaction counters.
- Purging of logs on the server, and the ten-second flush timer, which is any flush at any time.
- Trace output, registry, threads, the database connection and the SQL calls.
- The other output modes of the shell, NULL cells, and the SQL side of import.
- Decoding and printing of events, checksums, encryption and local files.
