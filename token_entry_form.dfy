/** The token entry form: two table sections of input rows, a validator,
    the submit decision and the reactions to text edits, the return key and
    the advanced-options header. Calls the form makes to its delegate and
    presenter are recorded, in order, in a ghost event log. */
module Forms {
  import opened Otp
  import opened FormOptions

  /** Identities of the rows and of the one header view the form owns. */
  datatype CellId =
    | IssuerCell | AccountNameCell | SecretKeyCell
    | TokenTypeCell | DigitCountCell | AlgorithmCell
    | AdvancedSectionHeader

  predicate IsTextField(c: CellId) {
    c == IssuerCell || c == AccountNameCell || c == SecretKeyCell
  }

  /** A table section: an optional header and its rows, top to bottom. */
  datatype Section = Section(header: Option<CellId>, rows: seq<CellId>)

  /** A call from the form to its delegate (DidCreateToken) or to its presenter (the others). */
  datatype Event =
    | DidCreateToken(token: Token)
    | DidFailWithErrorMessage(message: string)
    | FormValuesDidChange
    | DidReloadSection(section: int)

  const InvalidTokenMessage: string := "Invalid Token"

  /** The section index the header action asks to reload (hard-coded in the form). */
  const AdvancedSectionIndex: int := 1

  /** Reference layout: where each row sits once every section shows its rows. */
  function RowPosition(c: CellId): Option<(int, int)> {
    match c
    case IssuerCell => Some((0, 0))
    case AccountNameCell => Some((0, 1))
    case SecretKeyCell => Some((0, 2))
    case TokenTypeCell => Some((1, 0))
    case DigitCountCell => Some((1, 1))
    case AlgorithmCell => Some((1, 2))
    case AdvancedSectionHeader => None
  }

  /** Number of section-reload requests in an event log. */
  function ReloadCount(log: seq<Event>): nat {
    if log == [] then 0
    else (if log[0].DidReloadSection? then 1 else 0) + ReloadCount(log[1..])
  }

  lemma {:induction false} ReloadCountAppend(a: seq<Event>, b: seq<Event>)
    ensures ReloadCount(a + b) == ReloadCount(a) + ReloadCount(b)
  {
    if a == [] {
      assert a + b == b;
    } else {
      assert (a + b)[1..] == a[1..] + b;
      ReloadCountAppend(a[1..], b);
    }
  }

  class TokenEntryForm {
    /** Raw values of the option enumerations. */
    const codes: OptionCodes
    /** The library's base32 decoder: None when the text is not base32. */
    const decodeBase32: string -> Option<seq<byte>>
    /** Whether a token with these parameters can produce a password. */
    const hasPassword: Token -> bool

    // Current contents of the rows; an absent text is "".
    var issuerText: string
    var accountNameText: string
    var secretKeyText: string
    var tokenTypeValue: int
    var digitCountValue: int
    var algorithmValue: int

    var showsAdvancedOptions: bool
    /** The text field that is first responder, if any. */
    var focus: Option<CellId>

    /** Everything sent to the delegate and the presenter so far. */
    ghost var events: seq<Event>

    /** The form's invariant: focus is only ever on a text field, one reload
        request has been sent exactly when the advanced options are shown,
        every reload names the advanced section, and every token handed to
        the delegate has a non-empty secret and a password. */
    ghost predicate Valid()
      reads this
    {
      (focus.Some? ==> IsTextField(focus.value)) &&
      ReloadCount(events) == (if showsAdvancedOptions then 1 else 0) &&
      (forall e | e in events && e.DidReloadSection? :: e.section == AdvancedSectionIndex) &&
      (forall e | e in events && e.DidCreateToken? :: |e.token.secret| > 0 && hasPassword(e.token))
    }

    /** The values the user can edit, all at once. */
    function Inputs(): (string, string, string, int, int, int)
      reads this
    {
      (issuerText, accountNameText, secretKeyText, tokenTypeValue, digitCountValue, algorithmValue)
    }

    constructor (codes: OptionCodes, decodeBase32: string -> Option<seq<byte>>, hasPassword: Token -> bool,
                 tokenTypeValue: int, digitCountValue: int, algorithmValue: int)
      ensures Valid()
      ensures this.codes == codes && this.decodeBase32 == decodeBase32 && this.hasPassword == hasPassword
      ensures Inputs() == ("", "", "", tokenTypeValue, digitCountValue, algorithmValue)
      ensures !showsAdvancedOptions && focus == None && events == []
    {
      this.codes := codes;
      this.decodeBase32 := decodeBase32;
      this.hasPassword := hasPassword;
      issuerText, accountNameText, secretKeyText := "", "", "";
      this.tokenTypeValue := tokenTypeValue;
      this.digitCountValue := digitCountValue;
      this.algorithmValue := algorithmValue;
      showsAdvancedOptions := false;
      focus := None;
      events := [];
    }

    // ---- table layout ----

    /** The two sections: the three text rows with no header, then the
        advanced header with its three rows only while they are shown. Every
        row sits at its reference position. */
    function Sections(): (ss: seq<Section>)
      reads this
      ensures |ss| == 2
      ensures ss[0].header == None && |ss[0].rows| == 3
      ensures ss[1].header == Some(AdvancedSectionHeader)
      ensures |ss[1].rows| == (if showsAdvancedOptions then 3 else 0)
      ensures forall i, j | 0 <= i < |ss| && 0 <= j < |ss[i].rows| :: RowPosition(ss[i].rows[j]) == Some((i, j))
    {
      [ Section(None, [IssuerCell, AccountNameCell, SecretKeyCell]),
        if showsAdvancedOptions
        then Section(Some(AdvancedSectionHeader), [TokenTypeCell, DigitCountCell, AlgorithmCell])
        else Section(Some(AdvancedSectionHeader), []) ]
    }

    function NumberOfSections(): (n: int)
      reads this
      ensures n == 2
    {
      |Sections()|
    }

    function NumberOfRowsInSection(section: int): (n: int)
      reads this
      ensures section < 0 || section >= 2 ==> n == 0
      ensures section == 0 ==> n == 3
      ensures section == 1 ==> n == (if showsAdvancedOptions then 3 else 0)
    {
      if section < 0 then 0
      else if section >= |Sections()| then 0
      else |Sections()[section].rows|
    }

    function CellForRowAtIndexPath(section: int, row: int): (c: Option<CellId>)
      reads this
      ensures c.Some? <==> 0 <= section < NumberOfSections() && 0 <= row < NumberOfRowsInSection(section)
      ensures c.Some? ==> RowPosition(c.value) == Some((section, row))
    {
      if section < 0 then None
      else if section >= |Sections()| then None
      else
        var s := Sections()[section];
        if row < 0 then None
        else if row >= |s.rows| then None
        else Some(s.rows[row])
    }

    function ViewForHeaderInSection(section: int): (h: Option<CellId>)
      reads this
      ensures section != 1 ==> h == None
      ensures section == 1 ==> h == Some(AdvancedSectionHeader)
    {
      if section < 0 then None
      else if section >= |Sections()| then None
      else Sections()[section].header
    }

    // ---- derived values and validation ----

    function IsValid(): (b: bool)
      reads this
      ensures secretKeyText == "" ==> !b
      ensures issuerText == "" && accountNameText == "" ==> !b
      ensures secretKeyText != "" && (issuerText != "" || accountNameText != "") ==> b
    {
      secretKeyText != "" && !(issuerText == "" && accountNameText == "")
    }

    /** The token submit assembles around a decoded secret. */
    function AssembledToken(secret: seq<byte>): (t: Token)
      reads this
      ensures t.secret == secret
      ensures t.name == accountNameText && t.issuer == issuerText
      ensures t.tokenType == TokenTypeOf(codes, tokenTypeValue)
      ensures t.digits == DigitCountOf(codes, digitCountValue) && IsDigitCount(t.digits)
      ensures t.algorithm == AlgorithmOf(codes, algorithmValue)
    {
      Token(TokenTypeOf(codes, tokenTypeValue), secret, accountNameText, issuerText,
            DigitCountOf(codes, digitCountValue), AlgorithmOf(codes, algorithmValue))
    }

    /** What submitting the current values sends to the delegate and presenter. */
    function SubmitEvents(): (evs: seq<Event>)
      reads this
      ensures |evs| == (if IsValid() then 1 else 0)
      ensures evs != [] ==> evs[0].DidCreateToken? || evs[0] == DidFailWithErrorMessage(InvalidTokenMessage)
      ensures evs != [] && evs[0].DidCreateToken? ==>
        decodeBase32(secretKeyText) == Some(evs[0].token.secret) &&
        |evs[0].token.secret| > 0 &&
        evs[0].token == AssembledToken(evs[0].token.secret) &&
        hasPassword(evs[0].token)
      ensures
        (IsValid() && decodeBase32(secretKeyText).Some? && |decodeBase32(secretKeyText).value| > 0 &&
         hasPassword(AssembledToken(decodeBase32(secretKeyText).value)))
        ==> evs == [DidCreateToken(AssembledToken(decodeBase32(secretKeyText).value))]
    {
      if !IsValid() then []
      else match decodeBase32(secretKeyText)
        case Some(secret) =>
          if |secret| > 0 && hasPassword(AssembledToken(secret))
          then [DidCreateToken(AssembledToken(secret))]
          else [DidFailWithErrorMessage(InvalidTokenMessage)]
        case None => [DidFailWithErrorMessage(InvalidTokenMessage)]
    }

    // ---- operations ----

    method FocusFirstField()
      requires Valid()
      modifies this
      ensures Valid()
      ensures focus == Some(IssuerCell)
      ensures Inputs() == old(Inputs()) && showsAdvancedOptions == old(showsAdvancedOptions) && events == old(events)
    {
      focus := Some(IssuerCell);
    }

    method Unfocus()
      requires Valid()
      modifies this
      ensures Valid()
      ensures focus == None
      ensures Inputs() == old(Inputs()) && showsAdvancedOptions == old(showsAdvancedOptions) && events == old(events)
    {
      focus := None;
    }

    method Submit()
      requires Valid()
      modifies this
      ensures Valid()
      ensures events == old(events) + old(SubmitEvents())
      ensures Inputs() == old(Inputs()) && showsAdvancedOptions == old(showsAdvancedOptions) && focus == old(focus)
    {
      if !IsValid() { return; }

      var decoded := decodeBase32(secretKeyText);
      if decoded.Some? && |decoded.value| > 0 {
        var token := AssembledToken(decoded.value);
        if hasPassword(token) {
          ReloadCountAppend(events, [DidCreateToken(token)]);
          events := events + [DidCreateToken(token)];
          return;
        }
      }
      ReloadCountAppend(events, [DidFailWithErrorMessage(InvalidTokenMessage)]);
      events := events + [DidFailWithErrorMessage(InvalidTokenMessage)];
    }

    /** The user changed the text of text field `cell` to `text`; the presenter
        is told. Only the three text cells report edits. */
    method TextFieldCellDidChange(cell: CellId, text: string)
      requires Valid()
      requires IsTextField(cell)
      modifies this
      ensures Valid()
      ensures issuerText == (if cell == IssuerCell then text else old(issuerText))
      ensures accountNameText == (if cell == AccountNameCell then text else old(accountNameText))
      ensures secretKeyText == (if cell == SecretKeyCell then text else old(secretKeyText))
      ensures tokenTypeValue == old(tokenTypeValue) && digitCountValue == old(digitCountValue) && algorithmValue == old(algorithmValue)
      ensures showsAdvancedOptions == old(showsAdvancedOptions) && focus == old(focus)
      ensures events == old(events) + [FormValuesDidChange]
    {
      if cell == IssuerCell {
        issuerText := text;
      } else if cell == AccountNameCell {
        accountNameText := text;
      } else if cell == SecretKeyCell {
        secretKeyText := text;
      }
      ReloadCountAppend(events, [FormValuesDidChange]);
      events := events + [FormValuesDidChange];
    }

    /** The user picked raw value `value` in a segmented control; nobody is told. */
    method SegmentedControlValueDidChange(cell: CellId, value: int)
      requires Valid()
      modifies this
      ensures Valid()
      ensures tokenTypeValue == (if cell == TokenTypeCell then value else old(tokenTypeValue))
      ensures digitCountValue == (if cell == DigitCountCell then value else old(digitCountValue))
      ensures algorithmValue == (if cell == AlgorithmCell then value else old(algorithmValue))
      ensures issuerText == old(issuerText) && accountNameText == old(accountNameText) && secretKeyText == old(secretKeyText)
      ensures showsAdvancedOptions == old(showsAdvancedOptions) && focus == old(focus)
      ensures events == old(events)
    {
      if cell == TokenTypeCell {
        tokenTypeValue := value;
      } else if cell == DigitCountCell {
        digitCountValue := value;
      } else if cell == AlgorithmCell {
        algorithmValue := value;
      }
    }

    /** The return key was pressed in `cell`. */
    method TextFieldCellDidReturn(cell: CellId)
      requires Valid()
      modifies this
      ensures Valid()
      ensures Inputs() == old(Inputs()) && showsAdvancedOptions == old(showsAdvancedOptions)
      ensures cell == IssuerCell ==> focus == Some(AccountNameCell) && events == old(events)
      ensures cell == AccountNameCell ==> focus == Some(SecretKeyCell) && events == old(events)
      ensures cell == SecretKeyCell ==>
        focus == (if old(focus) == Some(SecretKeyCell) then None else old(focus)) &&
        events == old(events) + old(SubmitEvents())
      ensures !IsTextField(cell) ==> focus == old(focus) && events == old(events)
    {
      if cell == IssuerCell {
        focus := Some(AccountNameCell);
      } else if cell == AccountNameCell {
        focus := Some(SecretKeyCell);
      } else if cell == SecretKeyCell {
        if focus == Some(SecretKeyCell) {
          focus := None;
        }
        Submit();
      }
    }

    /** The advanced-options header button was pressed. */
    method HeaderViewButtonWasPressed()
      requires Valid()
      modifies this
      ensures Valid()
      ensures showsAdvancedOptions
      ensures events == old(events) + (if old(showsAdvancedOptions) then [] else [DidReloadSection(AdvancedSectionIndex)])
      ensures Inputs() == old(Inputs()) && focus == old(focus)
    {
      if !showsAdvancedOptions {
        showsAdvancedOptions := true;
        ReloadCountAppend(events, [DidReloadSection(AdvancedSectionIndex)]);
        events := events + [DidReloadSection(AdvancedSectionIndex)];
      }
    }
  }

  /** Each row is found exactly at its place in the reference layout, and an
      advanced row only while the advanced options are shown. */
  lemma CellForRowMatchesLayout(form: TokenEntryForm, section: int, row: int, c: CellId)
    ensures form.CellForRowAtIndexPath(section, row) == Some(c) <==>
      RowPosition(c) == Some((section, row)) && (section == 1 ==> form.showsAdvancedOptions)
  {
  }
}
