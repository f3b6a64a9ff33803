# libcoap client driver (main.c) in Dafny

A model of the three pieces of logic in the CoAP client driver `main.c` of
libcoap (draft-ietf-core-coap-00). Each is proved against a specification.

- `split_uri` cuts the command-line argument `coap://server[:port]/path` into a
  server, a port and a path. It writes NUL into the argument's buffer and
  returns pointers into that buffer.
  - The buffer is modelled as an `array<char>` holding the string and its
    terminating NUL (`CStrings.IsCString`).
  - The pointers become indices into that array.
  - The port is an `unsigned short`: each multiply-and-add step is reduced
    modulo 2^16.
  - `UriSplit.SplitUri` works in place. It is proved equal to the function
    `UriSplit.SplitSpec`, which gives both the outcome and the buffer afterwards.
  - Reading the cell after the terminator is an outcome of its own,
    `ReadsPastEnd`, rather than something a precondition rules out.
- `coap_new_get` builds the first request: a Confirmable GET with at most one
  Uri-Full or Uri-Path option.
  - The PDU is abstract: a message type, a code and the options in the order
    they were added.
  - `coap_add_option` appends an option.
  - What `coap_new_pdu` returned is a parameter. `None` stands for its failure.
- The event loop drains the transmission queue and then chooses the select
  timeout.
  - The queue is the sorted sequence of scheduled times of a `Context` object.
  - `coap_retransmit` is not part of this model. Its effect is a parameter:
    the popped transaction comes back at a later time (`Some`) or is dropped
    (`None`).
  - The drain loop is proved to leave no due entry. It replaces the due entries
    by their rescheduled times and leaves the others untouched.
  - The timeout is the time left until the new head, which is positive, or no
    timeout when the queue is empty.

`UriSplit.SplitUriCorrected` and `UriSplit.CorrectedSplitSpec` repair the two
defects of `split_uri` listed under Findings. The lemmas in
`UriSplitProperties` state what each version promises and where they agree.

## Model

| member | source | states |
|---|---|---|
| CStrings.ScanTo | main.c:98-99 | where `while (*p && *p != c) ++p` stops (also main.c:109-110 and 114-115): the first cell from the start holding NUL or c, inside the buffer |
| CStrings.DigitsEnd | main.c:120-123 | where `while (isdigit(*p)) ++p` stops: the first non-digit from the start, with only digits before it |
| CStrings.FindStop | main.c:98-99 | the `while (*p && *p != c) ++p` loop stops at the first NUL or c from its start, and never leaves the buffer |
| CStrings.ScanToFirst | main.c:109-110 | any index that is a first NUL-or-c stop is where the scan stops |
| CStrings.DigitsEndLocal | main.c:120-124 | the digit run read for the port depends only on the digit cells, so a NUL written elsewhere does not change it |
| UriSplit.HasCoapScheme | main.c:93 | the argument starts with the seven characters of "coap://", one by one |
| UriSplit.SchemeIsStrncmp | main.c:93 | on every C string, that scheme test holds exactly when `strncmp(str, "coap://", 7) == 0`, modelled as a comparison that stops at the first difference or at a shared NUL; a string shorter than the scheme fails both |
| UriSplit.CutPath | main.c:96-104 | the scan stops at the first '/' or NUL after the scheme; only that '/' can change, and it becomes NUL with the path just after it; without a '/' the buffer is unchanged and the path is at the terminator |
| UriSplit.PortAfterHost | main.c:118-125 | without ':' at the port check the port is the default; a ':' followed by no digit gives port 0 |
| UriSplit.SplitSpec | main.c:88-130 | split_uri as written: the buffer keeps its length and terminator, a read past the end is always of the cell just after the terminator, the server is unset exactly without "coap://", and the path index lies inside the buffer |
| UriSplit.CorrectedSplitSpec | main.c:88-130 | the corrected split: the buffer keeps its length and terminator, the server is unset exactly without "coap://", and the path index lies inside the buffer |
| UriSplit.PortStep | main.c:121-122 | reducing modulo 2^16 after each `*port *= 10; *port += d` equals reducing the value of the whole numeral once |
| UriSplit.ParsePort | main.c:119-124 | the port loop stops at the first non-digit, and the port is the digits' decimal value modulo 2^16 |
| UriSplit.CutPathInPlace | main.c:96-104 | the first '/' after the scheme becomes NUL and the path starts after it; without one the path is at the terminator |
| UriSplit.CutHostAsWritten | main.c:106-116 | a bracketed server is scanned to the first ']' or NUL, that cell becomes NUL and the port check starts one cell further on; any other server is scanned to the first ':' or NUL and nothing is written |
| UriSplit.SplitUri | main.c:88-130 | the in-place split returns exactly the outcome and leaves exactly the buffer that SplitSpec gives, including the read past the terminator |
| UriSplit.CutHostInPlace | main.c:107-116 | corrected host step: a ']' is cut only when one was found, and the port check then starts after it |
| UriSplit.CutPortInPlace | main.c:118-125 | corrected port step: the ':' before the port becomes NUL, and the port is the digit run after it |
| UriSplit.SplitUriCorrected | main.c:88-130 | the in-place corrected split returns exactly the parts and buffer that CorrectedSplitSpec gives |
| UriSplitProperties.SplitRelativeReference | main.c:91-93 | without "coap://" the path is the whole argument, the server is not set, the port is the default and the buffer is unchanged (both versions) |
| UriSplitProperties.SplitKeepsTail | main.c:96-104 | everything after the path's cut is unchanged, and the path index is just after the '/' or at the terminator |
| UriSplitProperties.SplitPath | main.c:96-104 | the path starts after the first '/' following the scheme, which becomes NUL; the path string is the rest of the argument |
| UriSplitProperties.SplitBracketedHost | main.c:107-111 | a bracketed server starts after '[' and is the text up to the first ']', which becomes NUL; the port is read only from a ':' right after that ']' |
| UriSplitProperties.SplitHostnameKeepsPort | main.c:112-125 | a host-name server is everything up to the path, ":port" included; the port is read only from a ':' before the path |
| UriSplitProperties.SplitPortWithoutDigits | main.c:112-120 | in the host-name branch, a ':' before the path with no digit after it gives port 0, not the default |
| UriSplitProperties.SplitBracketPortWithoutDigits | main.c:107-120 | in the bracketed branch, a ':' right after the ']' with no digit after it gives port 0, not the default |
| UriSplitProperties.UnclosedBracketPortFromPath | main.c:107-125 | with an unclosed '[' before a '/', the port check reads the path's first cell: a ':' there makes the digits after it the port, and the path still starts after the '/' |
| UriSplitProperties.SplitReadsPastEndIff | main.c:107-118 | the read past the terminator happens if and only if the server opens with '[' and neither ']' nor '/' follows |
| UriSplitProperties.SplitCutsOnlySeparators | main.c:101-111 | the buffer keeps its length, and the only cells written held '/' or ']' and now hold NUL |
| UriSplitProperties.AsWrittenReadsPastEnd | main.c:111-118 | on "coap://[::1" the port check reads index 12, one past the terminator |
| UriSplitProperties.AsWrittenPortFromPath | main.c:109-125 | on "coap://[h/:80" the port 80 is taken from the path |
| UriSplitProperties.AsWrittenServerKeepsPort | main.c:112-125 | on "coap://h:5/x" the port is 5, the path starts at 11 and the server string is "h:5" |
| UriSplitProperties.CorrectedServerIsHost | main.c:107-116 | the corrected server string is a prefix of the authority that holds neither '/' nor the delimiter (':' or ']'), and it ends at that delimiter or at the path |
| UriSplitProperties.CorrectedPortOnlyFromAuthority | main.c:118 | in the corrected split, if no ':' comes before the path then the port is the default |
| UriSplitProperties.CorrectedPortAgrees | main.c:118-125 | cutting at the ':' does not change the port read after it |
| UriSplitProperties.CorrectedAgreesAwayFromDefect | main.c:88-130 | with no '[' or a closed '[' before the path, both splits return the same server index, port and path (the server strings can still differ, see CorrectedHostPort) |
| UriSplitProperties.CorrectedUnclosedBracket | main.c:107-118 | the corrected split on "coap://[::1" gives the server at 8, the default port and the path at the terminator, index 11 |
| UriSplitProperties.CorrectedPathColon | main.c:107-118 | the corrected split on "coap://[h/:80" keeps the default port |
| UriSplitProperties.CorrectedHostPort | main.c:112-125 | the corrected split on "coap://h:5/x" gives the same parts as the code as written, with server string "h" |
| Request.AddOption | main.c:32-36 | `coap_add_option` keeps the type, the code and the earlier options, and appends exactly the one new option |
| Request.GetOptions | main.c:30-37 | at most one option; none exactly for a null, empty or "/" path; otherwise Uri-Full holding the whole path, or Uri-Path holding the path after its one leading '/' |
| Request.GetOptionsRoundTrip | main.c:30-37 | reading the request target back from the options gives the path, with the empty path read as "/" |
| Request.NewGet | main.c:20-41 | no PDU exactly when coap_new_pdu fails; otherwise the PDU is Confirmable GET and its options are the earlier ones followed by GetOptions |
| Retransmission.Context.PeekNext | main.c:181-186 | `coap_peek_next` returns nothing exactly on an empty queue, and otherwise an entry no later than any other |
| Retransmission.AfterRetransmit | main.c:185 | after one pop-and-retransmit the queue is one shorter, or the same length when the entry comes back, and stays sorted |
| Retransmission.WaitTimeout | main.c:189-194 | no timeout exactly when there is no head; otherwise the timeout ends when the head is due |
| Retransmission.DuePrefix | main.c:184 | the entries due at t are a prefix: all of them at or before t, and the next one later |
| Retransmission.Insert | main.c:185 | reinsertion keeps the queue sorted and adds exactly the one time |
| Retransmission.InsertSorted | main.c:185 | inserting after every entry no later than the new time keeps the queue sorted |
| Retransmission.DuePrefixCovers | main.c:184 | every leading run of entries no later than t is counted as due at t |
| Retransmission.InsertLater | main.c:184-186 | a time reinserted after now leaves the still-due entries in front, and nothing due behind them |
| Retransmission.DrainStepOrder | main.c:184-186 | one pop-and-retransmit removes the next due entry and keeps the not-yet-popped due entries in front |
| Retransmission.AfterRetransmitCount | main.c:185 | after popping the head, the queue holds the other entries plus whatever coap_retransmit puts back |
| Retransmission.DrainStepCount | main.c:185 | one pop-and-retransmit keeps the count: entries not yet popped plus the rescheduled times of those popped |
| Retransmission.DrainStep | main.c:184-186 | the head is the next due entry, and one step advances the drain invariant by one entry |
| Retransmission.DrainOrderHead | main.c:184 | during the drain the head is due exactly while due entries remain to be popped |
| Retransmission.DrainFinished | main.c:184-187 | when the loop stops, all due entries have been popped and the queue holds the rest plus their rescheduled times |
| Retransmission.DrainedTimeout | main.c:189-194 | on a drained queue the timeout is absent exactly when the queue is empty; otherwise it is positive and ends when the head is due |
| Retransmission.Context.PopNext | main.c:185 | pop returns the head and removes it, and keeps the queue sorted |
| Retransmission.Context.Retransmit | main.c:185 | the popped transaction is reinserted in order at its new time, or dropped |
| Retransmission.Context.RetransmitHead | main.c:185 | `coap_retransmit(ctx, coap_pop_next(ctx))` turns the queue into AfterRetransmit of the old queue |
| Retransmission.Context.DrainDue | main.c:181-194 | afterwards nothing is due; the queue is the not-due entries plus the rescheduled times of the due ones; the timeout is absent exactly when the queue is empty, and otherwise positive and ending when the head is due |

## Left out

- `send_request` (main.c:43-78) is left out: it is address resolution and socket I/O.
- `message_handler` and `usage` (main.c:80-86, 132-145) are left out: they only print.
- `select`, `fd_set`, `time`, `perror`, reading and dispatching in the event loop (main.c:177-206) are left out. `now` is a parameter.
- The bodies of the `coap_*` library calls (`coap_new_pdu`, `coap_add_option`, `coap_send_confirmed`, `coap_retransmit`, `coap_peek_next`, `coap_pop_next`, `coap_new_context`, `coap_read`, `coap_dispatch`) are not part of this model.
  - The queue is taken as kept sorted, with reinsertion after equal times.
  - `coap_add_option` appends.
  - The PDU's wire encoding is not modelled.
- The value of `COAP_DEFAULT_PORT` and the numeric values of the message type, code and option numbers come from `coap.h`, which is not part of this model. The default port is a parameter; the others are enumerations.
- `isdigit` is taken as '0'..'9', without locale.
- The queue holds scheduled times only. Peer, message id and retry count are not modelled, so `coap_retransmit`'s effect depends on the scheduled time alone.
- Retransmission.Context.DrainDue: requires `coap_retransmit` to reschedule each transaction that is due at `now` strictly after `now`; nothing is required of other times. When it does not, the source pops the same transaction again, and that loop ends only through the retry bound inside `coap_retransmit`, which is not part of this model.
- Request.NewGet: requires the path to contain no NUL. A C string cannot hold one, and `strlen` gives the option length.
- The split's results as pointers and the aliasing of `argv[1]` are modelled as indices into one array.

## Findings

| source | as written | input that shows it | evidently intended | confidence | as-written member | corrected member |
|---|---|---|---|---|---|---|
| main.c:109-118 | after an IPv6 reference, `*p++ = '\0'` steps past the stop cell even when no ']' was found. The port check then reads the cell after the terminator, or reads a port from the path | "coap://[::1" reads index 12, past the terminator; "coap://[h/:80" gives port 80 from the path | step past the stop cell only when it holds ']'; a ':' in the path is never a port | not executed | UriSplitProperties.AsWrittenReadsPastEnd, UriSplitProperties.AsWrittenPortFromPath, UriSplitProperties.UnclosedBracketPortFromPath | UriSplit.SplitUriCorrected, UriSplitProperties.CorrectedUnclosedBracket, UriSplitProperties.CorrectedPathColon, UriSplitProperties.CorrectedPortOnlyFromAuthority |
| main.c:112-118 | in the host-name branch no NUL is written at ':', so the server string passed to `getaddrinfo` still holds ":port" | "coap://h:5/x" gives server string "h:5" | the server string is the host alone, "h" | not executed | UriSplitProperties.AsWrittenServerKeepsPort | UriSplit.SplitUriCorrected, UriSplitProperties.CorrectedServerIsHost, UriSplitProperties.CorrectedHostPort |
