# Token entry form

A model of `TokenEntryForm`, the table-driven form in which an authenticator
app collects the issuer, account name and secret of a new one-time-password
token, plus the advanced options token type, digit count and hash algorithm.
The form answers a table view's layout queries (sections, rows, headers),
validates its values, and on submit either hands a freshly built token to
its delegate or reports "Invalid Token" to its presenter. It also reacts to
text edits, to the return key, and to the "Advanced Options" header button.

Files:

- `otp.dfy` (module `Otp`): the token parameters the form assembles, with the
  token type and algorithm enumerations, bytes and `Option`.
- `form_options.dfy` (module `FormOptions`): decoding the raw values of the
  three segmented controls. Each decoder falls back silently to a default.
  Each has an encoder (the raw value of each option) as its round-trip partner.
- `token_entry_form.dfy` (module `Forms`): the class `TokenEntryForm`.
  - It holds the row contents, the `showsAdvancedOptions` flag, the focused
    text field and a ghost log of the calls the form makes to its delegate
    and presenter.
  - The layout queries and the validator are functions of that state.
  - The submit decision is the function `SubmitEvents`. `Submit` and the
    return key on the secret field are proved to append exactly those events.
  - The invariant `Valid()` keeps these facts true across every operation:
    - focus is only ever on a text field;
    - one reload request has been sent exactly when the advanced options are
      shown, so pressing the header again sends nothing;
    - every reload names section 1;
    - every token given to the delegate has a non-empty secret and a password.

The external collaborators are parameters of the constructor:

- the base32 decoder, a function from text to optional bytes;
- the "token has a password" oracle, a predicate on token parameters;
- the raw values of the option enumerations, as an `OptionCodes` record whose
  numbers are left abstract. The round-trip lemmas assume only that the
  options of one enumeration have distinct raw values.

An absent text is modelled as `""`, as the issuer and account-name getters
do. The secret getter reads the raw text, but only a non-empty secret ever
reaches the decoder, so there the difference is unobservable. The validator
also reads the raw texts, where an absent text would stop the program; that
case is not modelled, and the texts are always strings.

## Model

| member | source | states |
|---|---|---|
| FormOptions.TokenTypeOf | Authenticator/Classes/TokenEntryForm.swift:71-73 | the type is Timer exactly when the raw value is the Timer option's, Counter for every other value |
| FormOptions.DigitCountOf | Authenticator/Classes/TokenEntryForm.swift:74-85 | the digit count is always 6, 7 or 8, and 6 for every unrecognised raw value |
| FormOptions.AlgorithmOf | Authenticator/Classes/TokenEntryForm.swift:86-97 | SHA1 for every unrecognised raw value; SHA256 and SHA512 only for their own options' raw values |
| FormOptions.TokenTypeCode | Authenticator/Classes/TokenEntryForm.swift:72 | decoding the raw value of a token-type option gives that option back, when the options' raw values are distinct |
| FormOptions.DigitCountCode | Authenticator/Classes/TokenEntryForm.swift:75-81 | decoding the raw value of the Six, Seven or Eight option gives 6, 7 or 8, when the options' raw values are distinct |
| FormOptions.AlgorithmCode | Authenticator/Classes/TokenEntryForm.swift:87-93 | decoding the raw value of an algorithm option gives that algorithm back, when the options' raw values are distinct |
| FormOptions.TokenTypeRecognised | Authenticator/Classes/TokenEntryForm.swift:71-73 | a recognised token-type raw value survives decoding then encoding unchanged |
| FormOptions.DigitCountRecognised | Authenticator/Classes/TokenEntryForm.swift:74-85 | a recognised digit-count raw value survives decoding then encoding unchanged |
| FormOptions.AlgorithmRecognised | Authenticator/Classes/TokenEntryForm.swift:86-97 | a recognised algorithm raw value survives decoding then encoding unchanged |
| Forms.TokenEntryForm.constructor | Authenticator/Classes/TokenEntryForm.swift:47-51 | a new form has empty texts, hidden advanced options, no focus, an empty log, and satisfies the invariant |
| Forms.TokenEntryForm.Sections | Authenticator/Classes/TokenEntryForm.swift:53-60 | two sections: issuer, account name, secret with no header; then the advanced header, with token type, digit count, algorithm only while the options are shown; every row at its reference position |
| Forms.TokenEntryForm.NumberOfSections | Authenticator/Classes/TokenEntryForm.swift:101-103 | there are always two sections |
| Forms.TokenEntryForm.NumberOfRowsInSection | Authenticator/Classes/TokenEntryForm.swift:105-109 | 0 for an index below 0 or from 2 on; 3 rows in section 0; in section 1, 3 rows when the advanced options are shown and 0 otherwise |
| Forms.TokenEntryForm.CellForRowAtIndexPath | Authenticator/Classes/TokenEntryForm.swift:111-118 | a cell exactly when both indices are in range (so none in section 1 while the options are hidden), and that cell's place in the reference layout is the queried one |
| Forms.CellForRowMatchesLayout | Authenticator/Classes/TokenEntryForm.swift:53-60 | each row is returned exactly at its reference position: issuer, account name, secret in section 0; token type, digit count, algorithm in section 1 only while the options are shown |
| Forms.TokenEntryForm.ViewForHeaderInSection | Authenticator/Classes/TokenEntryForm.swift:120-124 | section 1 always has the advanced-options header, shown or not; every other index, section 0 included, has none |
| Forms.TokenEntryForm.IsValid | Authenticator/Classes/TokenEntryForm.swift:136-139 | false with an empty secret; false when issuer and account name are both empty; true otherwise |
| Forms.TokenEntryForm.AssembledToken | Authenticator/Classes/TokenEntryForm.swift:146-152 | the built token carries the decoded secret, the account name as its name, the issuer, and the decoded type, digit count (6, 7 or 8) and algorithm |
| Forms.TokenEntryForm.SubmitEvents | Authenticator/Classes/TokenEntryForm.swift:141-163 | no event when invalid, exactly one when valid; a created token only when its secret decodes to non-empty bytes and the token (type, secret, name, issuer, digits, algorithm from the form) has a password, and then always; otherwise "Invalid Token" |
| Forms.TokenEntryForm.Submit | Authenticator/Classes/TokenEntryForm.swift:141-163 | appends exactly the submit events to the log, changes nothing else and keeps the invariant |
| Forms.TokenEntryForm.FocusFirstField | Authenticator/Classes/TokenEntryForm.swift:126-128 | focus moves to the issuer field and nothing else changes |
| Forms.TokenEntryForm.Unfocus | Authenticator/Classes/TokenEntryForm.swift:130-134 | no text field keeps focus and nothing else changes |
| Forms.TokenEntryForm.TextFieldCellDidChange | Authenticator/Classes/TokenEntryForm.swift:167-169 | only a text cell reports an edit; the edited text field takes the new text and exactly one "form values changed" notice is sent |
| Forms.TokenEntryForm.SegmentedControlValueDidChange | Authenticator/Classes/TokenEntryForm.swift:16 | the edited segmented control takes the new raw value and no notice is sent |
| Forms.TokenEntryForm.TextFieldCellDidReturn | Authenticator/Classes/TokenEntryForm.swift:171-180 | return on the issuer focuses the account name, on the account name focuses the secret, on the secret releases its focus and has exactly the effect of submit; on any other cell it does nothing |
| Forms.TokenEntryForm.HeaderViewButtonWasPressed | Authenticator/Classes/TokenEntryForm.swift:184-190 | the options end up shown; from hidden exactly one reload of section 1 is sent, from shown nothing changes; the invariant (one reload ever, flag never reset) is kept |

## Left out

- UIKit cells, their lazy construction, the header view's construction and the `title` string. Rows and the header are identities (`CellId`).
- First-responder mechanics. Focus is one variable holding the focused text field, if any.
- Base32 decoding and password generation. They belong to the token library and are constructor parameters here.
- The concrete raw values of the option enumerations. They are not visible to the form and stay abstract.
- Weak delegate and presenter references and optional dispatch. Both are taken as present, and every call to them is an entry in the event log.
- The delegate's token is an object in the source. Here it is the value of its parameters.
- Forms.TokenEntryForm.TextFieldCellDidChange: the source only sends the notice, because the text field has already changed its text. The model joins the edit and the notice into one step.
- Forms.TokenEntryForm.SegmentedControlValueDidChange: the source has no such method, since the segmented cell changes its value on its own. The model needs a way to set the value, and it sends no notice, matching the known gap in the source.
