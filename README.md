# kcli interface validation, modelled in Dafny

The baremetal platform validation of the installer registers a dynamic
validator, `validateInterfaces`, that checks the platform's two bridge
fields against the kcli host at `libvirtURI`. The validator:

- asks the host for its networks once (`interfaceValidator`);
- turns the ListNetworks response into a slice of interface names in response order;
- returns a lookup closure that says "no interfaces found" for an empty slice, nil for a
  name equal to one in the slice, and otherwise "could not find interface %q, valid
  interfaces are ..." with every known name joined by `", "`;
- in `validateInterfaces`, reports a failed fetch as one internal error on `libvirtURI` and
  stops; otherwise checks `externalBridge` and then `provisioningBridge`, appending one invalid
  error for each value the lookup rejects.

Files:

- `wrappers.dfy`: module `Wrappers`, with `Option` (a nil-or-not error or value) and `Result` (a Go `(T, error)` return).
- `go_format.dfy`: module `GoFormat`, the two pieces of Go's standard library the messages are built from.
  `Quote` is `%q` on a string, that is `strconv.Quote`.
  `Join` is `strings.Join`.
  `UnquotePrefix` is a decoder that undoes `Quote` (`QuoteRoundTrip`); it also accepts some escapes `Quote` never writes.
  `JoinAt` gives the exact layout of a joined string.
- `kcli.dfy`: module `KcliValidation`, the validator itself.
  - The data model: `Network`, `KcliReply`, `Platform`, `FieldPath`, `FieldError`, `Lookup`.
  - The specification functions: `Fetch`, `Check`, `Validation`.
  - The imperative operations, each proved against a specification: `ExtractNames`, `InterfaceValidator`,
    `FindInterface`, `ValidateInterfaces`.
  - The lemmas for the properties the code promises.

The RPC exchange with the kcli host is an input. `KcliReply` is one of three things:
`DialFailed(cause)` (grpc.Dial failed), `ListFailed(cause)` (ListNetworks failed), or
`Listed(networks)` (ListNetworks answered). `ValidateInterfaces` takes exactly one reply, so
both field checks run against the same snapshot of the host. The URL only selects the host,
so it appears in `Platform` but the model does not read it. `errors.Wrap(err, msg)` is modelled
by the text its `Error()` gives, `msg + ": " + cause`. A `field.Path` is the sequence of its
segments, and `Child` appends one segment. A `field.Error` is a record with these fields:
the error type, the path, the bad value (`None` for an internal error, whose value is nil), and
the detail string.

The name slice is filled by index into a freshly allocated array, as the source preallocates it.
The lookup is a linear search with an early exit, as the source's closure does. The error list
grows by appends, with an early return.

The code checks exactly the two bridge fields, `externalBridge` and then `provisioningBridge`, in that fixed order.
The lookup searches a slice, so duplicate names are not collapsed: the joined message repeats every name as the host reported it.

## Model

| member | source | states |
|---|---|---|
| KcliValidation.ExtractNames | pkg/types/baremetal/validation/kcli.go:58-65 | the name list has the response's length and its `i`th entry is the `i`th network's name |
| KcliValidation.NamesInResponseOrder | pkg/types/baremetal/validation/kcli.go:58-62 | the specification's name list keeps the response order and length, and holds a name exactly when some network carries it |
| KcliValidation.InterfaceValidator | pkg/types/baremetal/validation/kcli.go:44-81 | a dial failure gives the error "fail to connect to kcli url: " + cause; a listing failure gives "could not list network interfaces: " + cause; a listing gives a lookup over the network names in order |
| KcliValidation.FindInterface | pkg/types/baremetal/validation/kcli.go:68-80 | there are three outcomes. An empty list gives "no interfaces found". A name present in a non-empty list gives no error. An absent name gives "could not find interface " + Quote(name) + ", valid interfaces are " + all names joined by ", " |
| KcliValidation.ValidateInterfaces | pkg/types/baremetal/validation/kcli.go:22-40 | the error list built by the appends and the early return is the specification `Validation` of the platform, the path and the reply |
| KcliValidation.FetchFailureIsSingleInternalError | pkg/types/baremetal/validation/kcli.go:25-29 | a failed fetch gives exactly one error. It is internal, on `libvirtURI`, with no bad value, and carries the wrapped cause. No field is checked |
| KcliValidation.FieldErrorsInOrder | pkg/types/baremetal/validation/kcli.go:31-39 | after a successful fetch there are at most two errors, one per field whose lookup fails, all invalid, each on one of the two bridge paths. A field whose lookup succeeds adds nothing. An `externalBridge` error comes first and a `provisioningBridge` error last. Each error carries its field's value and the lookup's message |
| KcliValidation.NoErrorsIffBothFound | pkg/types/baremetal/validation/kcli.go:31-39 | a successful fetch gives no error if and only if the host has networks and both bridge values are names of the host's networks |
| KcliValidation.EmptyInventoryRejectsEveryField | pkg/types/baremetal/validation/kcli.go:69-70 | with no networks, both fields get "no interfaces found", whatever their values, the empty string included |
| KcliValidation.ExactMatchOnly | pkg/types/baremetal/validation/kcli.go:72-76 | for a non-empty list, the lookup accepts a name if and only if some entry is equal to it character for character |
| KcliValidation.NotFoundMessageNamesValueAndList | pkg/types/baremetal/validation/kcli.go:78 | from the not-found message, the quoted value and the joined list of names can be read back, and the message is never "no interfaces found" |
| KcliValidation.NotFoundMessageInjective | pkg/types/baremetal/validation/kcli.go:78 | equal not-found messages come from equal values and equally joined lists |
| KcliValidation.RejectionQuotesValueAndListsNames | pkg/types/baremetal/validation/kcli.go:31-39 | when the host has networks, every field error names a value absent from the host's names. Its message quotes that value, and the list it gives holds every network's name at that name's place in the join |
| KcliValidation.OneSnapshotForBothFields | pkg/types/baremetal/validation/kcli.go:25-37 | both fields are checked against one snapshot. Equal bridge values get both no error, or two errors with the same value and the same message |
| KcliValidation.ProvisioningBridgeMissing | pkg/types/baremetal/validation/kcli.go:22-40 | with networks br0 and provisioning, bridges br0 and prov0 give one error. It is on `provisioningBridge` with value prov0 and the message lists "br0, provisioning" |
| GoFormat.QuoteRoundTrip | pkg/types/baremetal/validation/kcli.go:78 | the `%q` rendering of a name loses nothing: the name, and the text after it, can be decoded back |
| GoFormat.QuoteInjective | pkg/types/baremetal/validation/kcli.go:78 | different names are quoted differently |
| GoFormat.EscapeRoundTrip | pkg/types/baremetal/validation/kcli.go:78 | decoding an escaped body that is followed by the closing quote gives the original text and what follows |
| GoFormat.QuotePlain | pkg/types/baremetal/validation/kcli.go:78 | a name of printable characters without `"` or `\` is quoted by wrapping it in `"` |
| GoFormat.JoinAt | pkg/types/baremetal/validation/kcli.go:78 | in `strings.Join`, every name stands at its offset in list order, a separator follows every name but the last, and the last name ends the string |

## Left out

- The gRPC connection: `grpc.Dial` with an insecure channel, `conn.Close`, the 5-second `context.WithTimeout` and its `cancel`, and the ListNetworks call. These are network I/O and a foreign client. What they produce is the input `KcliReply`.
- The `init` function that appends `validateInterfaces` to the package's `dynamicValidators`. It is registration wiring with no behaviour to prove.
- The `else` branch of the extraction loop. `err` is always nil there, because the listing error returned earlier, so the branch cannot run and the model's loop has no such branch.
- `errors.Wrap`'s cause chain and stack trace. Only the text of `Error()` is modelled.
- The internals of `field.Path` and `field.ErrorList`: index segments, and the rendering of an error as a string.
- GoFormat.IsPrint: exact for U+0000..U+00FF, which is Go's Latin-1 fast path. Every rune above U+00FF counts as printable, because Go's Unicode tables are not modelled. As a result, `Quote` never writes the `\u` escape for a non-printable above U+00FF, nor the `\U` escape.
- GoFormat.Quote: strings are sequences of Unicode scalar values, so the `\x` escape that Go writes for a byte that is not valid UTF-8 does not arise.
