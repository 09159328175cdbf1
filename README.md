# golang-cli user display, modelled in Dafny

This project models the presentation layer of the `golang-cli` tool
(`internal/display/user_display.go`). The layer takes a `UsersResponse` page
(the users plus the server's `total`, `skip` and `limit`) and a format name
(`json`, `table`, `simple`, anything else meaning `default`) and writes text to
standard output. The model does not write anything. Each renderer returns the
text it would write as a `Lines` value, a `seq<string>`. Standard output is the
elements in order, each followed by a newline. Most elements come from one
`Printf` or `Println` each, with these exceptions:
- The summary's single `Printf`, whose format starts and ends with a newline, gives three elements: a blank one, the summary line and another blank one.
- The json body is one element holding the whole indented text, which spans several printed lines.
- A field value that contains a newline also makes its element span several printed lines (see "## Left out").

Files:

- `models.dfy` (module `Models`): `Company`, `User` and `UsersResponse` as datatypes, mirroring `internal/models/user.go`.
- `fmt.dfy` (module `Fmt`): the two Go `fmt` verbs the renderers need. `IntToDecimal` is `%d`, proved injective through its inverse `DecimalToInt`. `PadRight` is `%-Ns`.
- `user_display.dfy` (module `UserDisplay`): `truncateString`, the summary, the three text renderers and `Display`.

The specification functions are `SimpleLines`, `TableLines`, `DefaultLines`,
and `Render` for the whole output. They are built on the recursive functions
`PerUser` and `Blocks`. Each Go loop shape is written once, as a loop method
proved equal to one of those two functions. `DisplaySimple`, `DisplayTable` and
`DisplayDefault` call these loops, and `Display` has no loop of its own: it
dispatches to them:
- `EmitPerUser` is the one-line-per-user loop that `displaySimple` and `displayTable` share.
- `EmitBlocks` is the block loop of `displayDefault`, which writes a blank line while `i < len(users)-1`.

Lemmas then prove what the source promises about those functions.

`truncateString` slices `s[:maxLen-3]`, which panics when the string is longer
than `maxLen` and `maxLen < 3`. `TruncateString` requires
`|s| <= maxLen || 3 <= maxLen`, exactly the inputs on which that slice does not
panic. Every call site passes 14 or 24.

## Model

| member | source | states |
|---|---|---|
| `UserDisplay.TruncateString` | internal/display/user_display.go:88-93 | a string of at most `maxLen` characters comes back unchanged; a longer one becomes exactly `maxLen` characters: its first `maxLen-3` characters followed by `...`; callable exactly when the Go slice does not panic |
| `UserDisplay.TruncateLength` | internal/display/user_display.go:88-93 | for `maxLen >= 3` the result has length `min(|s|, maxLen)` |
| `UserDisplay.TruncateIdempotent` | internal/display/user_display.go:88-93 | truncating an already truncated string to the same width changes nothing |
| `UserDisplay.TruncateExamples` | internal/display/user_display_test.go:61-79 | the three unit-test cases: `("short",10)`, `("this is a very long string",10)` giving `"this is..."`, `("exactly10char",13)` |
| `Fmt.IntToDecimalInjective` | internal/display/user_display.go:35-36 | two integers print the same under `%d` exactly when they are equal (via the round trip `DecimalToInt(IntToDecimal(i)) == i`) |
| `Fmt.PadRight` | internal/display/user_display.go:46-47 | `%-Ns` keeps the value as a prefix, pads it with spaces to width N and never cuts a longer value |
| `UserDisplay.SummaryLineInjective` | internal/display/user_display.go:34-37 | two summary lines are equal exactly when their total, shown count and skip agree, so the line reports those three numbers and nothing else |
| `UserDisplay.SummaryExample` | internal/display/user_display_test.go:50-52 | the summary for total 1, one user shown, skip 0 contains `Found 1 users` |
| `UserDisplay.RenderStartsWithSummary` | internal/display/user_display.go:19-37 | in every format the output opens with a blank line, the summary line (from `Total`, `len(Users)` and `Skip`) and a blank line; changing `Limit` changes nothing in the output |
| `UserDisplay.RenderFallsBackToDefault` | internal/display/user_display.go:22-31 | any format other than `json`, `table` and `simple` gives exactly the output of `default` |
| `UserDisplay.Display` | internal/display/user_display.go:19-32 | the method writes the summary and then the body chosen by the format, which is exactly `Render` |
| `UserDisplay.EmitPerUser` | internal/display/user_display.go:63-66 | the range loop writes, after the given head lines, exactly one line per user in input order (`PerUser`) |
| `UserDisplay.DisplaySimple` | internal/display/user_display.go:62-67 | exactly one line per user, in input order, each `{id}: {first} {last} ({email})` |
| `UserDisplay.SimpleLinesAt` | internal/display/user_display.go:62-66 | the simple body has one line per user and line `i` is user `i`'s line |
| `UserDisplay.DisplayTable` | internal/display/user_display.go:44-60 | header line, then the rule, then one row per user in input order |
| `UserDisplay.TableLinesAt` | internal/display/user_display.go:44-59 | the table body has `|users| + 2` lines: header, rule, and row `i` for user `i` |
| `UserDisplay.Join6Layout` | internal/display/user_display.go:46-47 | with padded cells of widths 4, 15, 15, 25 and 15, the six columns start at offsets 0, 5, 21, 37, 63 and 79, the first five each followed by a space |
| `UserDisplay.TableHeaderWidth` | internal/display/user_display.go:46-48 | the header line is 84 characters wide, the same width as the dashed rule |
| `UserDisplay.TruncatedCell` | internal/display/user_display.go:54-57 | a field truncated to `maxLen` and padded to `maxLen + 1` is exactly `maxLen + 1` wide and ends in a space; it shows the whole field when the field fits, otherwise its cut form with `...` |
| `UserDisplay.TableRowLayout` | internal/display/user_display.go:52-58 | first name, last name and phone columns are exactly 15 wide and email exactly 25. When the id prints in at most 4 characters, these columns sit under their headers. When the age also prints in at most 5, the row is as wide as the header |
| `UserDisplay.FirstNameShown` | internal/display/user_display.go:52-54 | when the id fits its column, a first name of at most 14 characters is shown whole at offset 5 |
| `UserDisplay.LastNameShown` | internal/display/user_display.go:52-55 | when the id fits its column, a last name of at most 14 characters is shown whole at offset 21 |
| `UserDisplay.EmailShown` | internal/display/user_display.go:52-56 | when the id fits its column, an email of at most 24 characters is shown whole at offset 37 |
| `UserDisplay.PhoneShown` | internal/display/user_display.go:52-57 | when the id fits its column, a phone of at most 14 characters is shown whole at offset 63 |
| `UserDisplay.TableRowShowsFittingFields` | internal/display/user_display.go:52-58 | when the id fits its column, a name, email or phone that fits its width is shown whole at the start of its column |
| `UserDisplay.TableExample` | internal/display/user_display_test.go:13-59 | for the unit test's one-user page in `table` format the output has 6 lines, with `Found 1 users`, `John` and `john@example.com` in it |
| `UserDisplay.UserBlockShape` | internal/display/user_display.go:71-80 | a user block has 6 lines, plus 2 exactly when `Company.Name != ""`; the Company and Title lines appear if and only if the company name is non-empty; no line of a block is blank |
| `UserDisplay.EmitBlocks` | internal/display/user_display.go:70-85 | the indexed loop writes each block in order, with a blank line after every block but the last (`Blocks`) |
| `UserDisplay.DisplayDefault` | internal/display/user_display.go:69-86 | the default body is `DefaultLines`: the user blocks in input order, separated by single blank lines |
| `UserDisplay.DefaultLinesCount` | internal/display/user_display.go:69-85 | the default body has the sum of the block sizes (6 or 8 each) plus `n - 1` lines for `n >= 1` users, and none for no users |
| `UserDisplay.DefaultLinesSeparators` | internal/display/user_display.go:82-84 | the default body has exactly `n - 1` blank lines for `n >= 1` users and none for none. It starts with the first user's `User #` header and ends with the last line of the last block, which is never blank |

## Left out

- `displayJSON` (internal/display/user_display.go:39-42) is only a call to `json.MarshalIndent`, whose code is not part of this model. Its text is the parameter `marshalled` of `Display` and `Render`. It is one element of `Lines`, written by one `Println`, and it spans as many printed lines as the indented text has. The discarded marshalling error lets that text be empty.
- Standard output: renderers return their lines instead of printing them.
- Newlines inside field values: an element of `Lines` is text followed by a newline, not necessarily one line of the terminal. The line-count and blank-line claims (`UserBlockShape`, `TableLinesAt`, `DefaultLinesCount`, `DefaultLinesSeparators`) count elements. They agree with the printed lines only when no field of a user contains `'\n'`. The API does not promise that, and the model does not check it.
- `NewUserDisplayer` and the empty `UserDisplayer` struct have no state. The renderers are module-level members instead of methods of a class.
- Byte versus character counts: Go's `len` and slicing in `truncateString` count bytes, while `fmt` padding counts runes. The model counts characters on both sides. This agrees with Go for ASCII text only; for other text Go can cut a multi-byte character, which the model does not show.
- Integer width: Go `int` is 64 bits. The model's integers are unbounded. No rendering arithmetic can overflow, so only the range of values the API can deliver differs.
- The HTTP client (`internal/client/user_client.go`), the service that logs the request URL and calls client and display (`internal/service/user_service.go`), and the command wiring (`cli.go`, `internal/commands/*.go`) are not part of this model. They are network I/O, JSON decoding by a library, and command-line plumbing.
