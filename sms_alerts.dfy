/** The SMS alerts page's helpers, without the rendering: the form validator, the message
    templates, the notification filter and counters, the recipient-selection list and the
    request bodies the send button posts to POST /api/sms/send. */
module SmsAlerts {
  import opened Common
  import opened Schema
  import opened Ordering

  // ---------------------------------------------------------------------------
  // The form and its validator

  datatype RecipientType = Individual | Group | All
  datatype MessageType = PriceAlert | Weather | PaymentAlert | General

  function RecipientTypeLabel(t: RecipientType): string {
    match t
    case Individual => "individual"
    case Group => "group"
    case All => "all"
  }

  function MessageTypeLabel(t: MessageType): string {
    match t
    case PriceAlert => "price_alert"
    case Weather => "weather"
    case PaymentAlert => "payment"
    case General => "general"
  }

  function ParseRecipientType(text: string): (r: Option<RecipientType>)
    ensures r.Some? ==> RecipientTypeLabel(r.value) == text
    ensures forall t :: RecipientTypeLabel(t) == text ==> r == Some(t)
  {
    if text == "individual" then Some(Individual)
    else if text == "group" then Some(Group)
    else if text == "all" then Some(All)
    else None
  }

  function ParseMessageType(text: string): (r: Option<MessageType>)
    ensures r.Some? ==> MessageTypeLabel(r.value) == text
    ensures forall t :: MessageTypeLabel(t) == text ==> r == Some(t)
  {
    if text == "price_alert" then Some(PriceAlert)
    else if text == "weather" then Some(Weather)
    else if text == "payment" then Some(PaymentAlert)
    else if text == "general" then Some(General)
    else None
  }

  /** The form's fields as the user left them, before validation. */
  datatype SmsFormInput = SmsFormInput(
    recipientType: string, recipientId: Option<string>, phone: string, message: string, messageType: string)

  /** The form's fields after validation. */
  datatype SmsFormData = SmsFormData(
    recipientType: RecipientType, recipientId: Option<string>, phone: string, message: string,
    messageType: MessageType)

  /** The form as the page first shows it. */
  const DefaultForm: SmsFormInput := SmsFormInput("individual", Some(""), "", "", "general")

  /** One SMS holds at most 160 characters. */
  const MaxSmsLength: nat := 160

  datatype FormIssue = InvalidRecipientType | PhoneRequired | MessageRequired | MessageTooLong | InvalidMessageType

  /** The message shown under the field; the enum fields use the validator's built-in message. */
  function IssueText(issue: FormIssue): Option<string> {
    match issue
    case PhoneRequired => Some("Phone number is required")
    case MessageRequired => Some("Message is required")
    case MessageTooLong => Some("Message must be 160 characters or less")
    case _ => None
  }

  datatype Validation = Accepted(data: SmsFormData) | Rejected(issues: seq<FormIssue>)

  /** The issue raised when a check fails. */
  function Check(failed: bool, issue: FormIssue): (r: seq<FormIssue>)
    ensures forall x :: x in r <==> failed && x == issue
  {
    if failed then [issue] else []
  }

  /** The failed checks, field by field; an empty message fails only the minimum-length check and
      an overlong one only the maximum-length check. */
  function FormIssues(f: SmsFormInput): (issues: seq<FormIssue>)
    ensures InvalidRecipientType in issues <==> ParseRecipientType(f.recipientType).None?
    ensures PhoneRequired in issues <==> f.phone == ""
    ensures MessageRequired in issues <==> f.message == ""
    ensures MessageTooLong in issues <==> |f.message| > MaxSmsLength
    ensures InvalidMessageType in issues <==> ParseMessageType(f.messageType).None?
  {
    var recipientTypeOk := ParseRecipientType(f.recipientType).Some?;
    var messageTypeOk := ParseMessageType(f.messageType).Some?;
    Check(!recipientTypeOk, InvalidRecipientType)
    + Check(|f.phone| < 1, PhoneRequired)
    + Check(|f.message| < 1, MessageRequired)
    + Check(|f.message| > MaxSmsLength, MessageTooLong)
    + Check(!messageTypeOk, InvalidMessageType)
  }

  /** Every failed check is reported; a form with none is accepted with its enum fields read. */
  function ValidateSmsForm(f: SmsFormInput): (r: Validation)
    ensures r.Accepted? <==> && ParseRecipientType(f.recipientType).Some?
                             && |f.phone| >= 1
                             && 1 <= |f.message| <= MaxSmsLength
                             && ParseMessageType(f.messageType).Some?
    ensures r.Accepted? ==> && RecipientTypeLabel(r.data.recipientType) == f.recipientType
                            && r.data.recipientId == f.recipientId
                            && r.data.phone == f.phone
                            && r.data.message == f.message
                            && MessageTypeLabel(r.data.messageType) == f.messageType
    ensures r.Rejected? ==> r.issues == FormIssues(f) && r.issues != []
  {
    var issues := FormIssues(f);
    if issues == [] then
      Accepted(SmsFormData(ParseRecipientType(f.recipientType).value, f.recipientId, f.phone, f.message,
                           ParseMessageType(f.messageType).value))
    else
      Rejected(issues)
  }

  /** The form as first shown cannot be sent: phone and message are both missing. */
  lemma DefaultFormRejected()
    ensures ValidateSmsForm(DefaultForm) == Rejected([PhoneRequired, MessageRequired])
  {
  }

  // ---------------------------------------------------------------------------
  // Message templates

  const PriceAlertTemplate: string :=
    "Coffee prices updated: AA grade KSh {price}/kg. Current market trends favorable for selling."
  const WeatherTemplate: string :=
    "Weather Alert: {weather_condition} expected tomorrow. Please take necessary precautions for your coffee."
  const PaymentTemplate: string :=
    "Payment notification: KSh {amount} has been processed for lot {lot_id}. Thank you for your business."

  /** The template stored under a message-type key; `None` for a key the table does not have. */
  function Template(key: string): (t: Option<string>)
    ensures t.Some? <==> ParseMessageType(key).Some?
    ensures t == Some("") <==> key == "general"
    ensures t.Some? ==> |t.value| <= MaxSmsLength
  {
    if key == "price_alert" then Some(PriceAlertTemplate)
    else if key == "weather" then Some(WeatherTemplate)
    else if key == "payment" then Some(PaymentTemplate)
    else if key == "general" then Some("")
    else None
  }

  /** Choosing a message type records it and, when its template is non-empty, replaces the
      message with the template text as written (the placeholders are not filled in). */
  function ChangeMessageType(f: SmsFormInput, messageType: string): (r: SmsFormInput)
    ensures r.messageType == messageType
    ensures r.recipientType == f.recipientType && r.recipientId == f.recipientId && r.phone == f.phone
    ensures messageType == "general" || ParseMessageType(messageType).None? ==> r.message == f.message
    ensures ParseMessageType(messageType).Some? && messageType != "general" ==>
              r.message == Template(messageType).value && 1 <= |r.message| <= MaxSmsLength
  {
    var template := Template(messageType);
    if template.Some? && template.value != "" then f.(messageType := messageType, message := template.value)
    else f.(messageType := messageType)
  }

  /** After choosing price alert, weather or payment, the message passes both length checks:
      the form is accepted exactly when its recipient type and phone are. */
  lemma TemplateMessageIsSendable(f: SmsFormInput, t: MessageType)
    requires t != General
    ensures var r := ValidateSmsForm(ChangeMessageType(f, MessageTypeLabel(t)));
            && (r.Accepted? <==> ParseRecipientType(f.recipientType).Some? && f.phone != "")
            && (r.Accepted? ==> r.data.messageType == t)
            && (r.Rejected? ==> MessageRequired !in r.issues && MessageTooLong !in r.issues)
  {
    var g := ChangeMessageType(f, MessageTypeLabel(t));
    assert ParseMessageType(MessageTypeLabel(t)) == Some(t);
    assert 1 <= |g.message| <= MaxSmsLength;
  }

  /** Choosing the general type keeps whatever message was typed. */
  lemma GeneralKeepsMessage(f: SmsFormInput)
    ensures ChangeMessageType(f, "general") == f.(messageType := "general")
  {
  }

  // ---------------------------------------------------------------------------
  // The notification list: search and status filter, and the status counters

  /** The row's phone contains the term, or its lower-cased message contains the lower-cased term. */
  predicate MatchesSearch(n: SmsNotification, searchTerm: string) {
    Contains(n.phone, searchTerm) || Contains(ToLower(n.message), ToLower(searchTerm))
  }

  predicate MatchesStatus(n: SmsNotification, statusFilter: string) {
    statusFilter == "all" || n.status == statusFilter
  }

  predicate KeepsRow(n: SmsNotification, searchTerm: string, statusFilter: string) {
    MatchesSearch(n, searchTerm) && MatchesStatus(n, statusFilter)
  }

  function Keeps(searchTerm: string, statusFilter: string): SmsNotification -> bool {
    n => KeepsRow(n, searchTerm, statusFilter)
  }

  /** The rows the list shows, in the order they were fetched. */
  function FilteredNotifications(rows: seq<SmsNotification>, searchTerm: string, statusFilter: string)
    : (r: seq<SmsNotification>)
    ensures forall i :: 0 <= i < |r| ==> KeepsRow(r[i], searchTerm, statusFilter)
    ensures forall x :: multiset(r)[x] == if KeepsRow(x, searchTerm, statusFilter) then multiset(rows)[x] else 0
    ensures IsSubsequence(r, rows)
  {
    Select(rows, Keeps(searchTerm, statusFilter))
  }

  /** The search in terms of positions: the term occurs somewhere in the phone, or the lower-cased
      term occurs somewhere in the lower-cased message. */
  lemma MatchesSearchIff(n: SmsNotification, searchTerm: string)
    ensures MatchesSearch(n, searchTerm) <==>
              (exists i :: OccursAt(n.phone, searchTerm, i))
              || (exists i :: OccursAt(ToLower(n.message), ToLower(searchTerm), i))
  {
    ContainsIffOccurs(n.phone, searchTerm);
    ContainsIffOccurs(ToLower(n.message), ToLower(searchTerm));
  }

  /** With an empty search and the "all" filter, every row is shown, in order. */
  lemma EmptySearchAllStatusesShowsEverything(rows: seq<SmsNotification>)
    ensures FilteredNotifications(rows, "", "all") == rows
  {
    forall i | 0 <= i < |rows| ensures Keeps("", "all")(rows[i]) {
      assert Contains(rows[i].phone, "");
    }
    SelectAll(rows, Keeps("", "all"));
  }

  predicate IsSent(n: SmsNotification) { n.status == "sent" }
  predicate IsPending(n: SmsNotification) { n.status == "pending" }
  predicate IsFailed(n: SmsNotification) { n.status == "failed" }

  datatype Totals = Totals(sent: nat, pending: nat, failed: nat)

  /** How many rows are exactly "sent", "pending" and "failed". */
  function StatusTotals(rows: seq<SmsNotification>): (t: Totals)
    ensures t.sent == |Select(rows, IsSent)|
    ensures t.pending == |Select(rows, IsPending)|
    ensures t.failed == |Select(rows, IsFailed)|
  {
    Totals(Count(rows, IsSent), Count(rows, IsPending), Count(rows, IsFailed))
  }

  /** The three counters never add up to more than the number of rows (other statuses are counted
      by none of them). */
  lemma {:induction false} StatusTotalsBounded(rows: seq<SmsNotification>)
    ensures var t := StatusTotals(rows); t.sent + t.pending + t.failed <= |rows|
    decreases |rows|
  {
    if rows != [] {
      StatusTotalsBounded(rows[1..]);
    }
  }

  /** A counter equals the length of the list filtered on that status with an empty search. */
  lemma SentCounterMatchesFilter(rows: seq<SmsNotification>)
    ensures StatusTotals(rows).sent == |FilteredNotifications(rows, "", "sent")|
  {
    forall i | 0 <= i < |rows| ensures IsSent(rows[i]) == Keeps("", "sent")(rows[i]) {
      assert Contains(rows[i].phone, "");
    }
    CountCongruent(rows, IsSent, Keeps("", "sent"));
  }

  // ---------------------------------------------------------------------------
  // The recipient-selection list

  function IsNot(id: string): string -> bool {
    x => x != id
  }

  /** Checking appends the id (even when it is already listed); unchecking drops every
      occurrence of it and keeps the other ids, in order. */
  function HandleRecipientSelection(selected: seq<string>, recipientId: string, checked: bool)
    : (r: seq<string>)
    ensures checked ==> |r| == |selected| + 1 && r[..|selected|] == selected && r[|selected|] == recipientId
    ensures !checked ==> && recipientId !in r
                         && IsSubsequence(r, selected)
                         && forall x :: x != recipientId ==> multiset(r)[x] == multiset(selected)[x]
  {
    if checked then selected + [recipientId]
    else Select(selected, IsNot(recipientId))
  }

  /** Checking an id that was not selected and then unchecking it restores the selection. */
  lemma CheckThenUncheck(selected: seq<string>, recipientId: string)
    requires recipientId !in selected
    ensures HandleRecipientSelection(HandleRecipientSelection(selected, recipientId, true), recipientId, false)
            == selected
  {
    SelectConcat(selected, [recipientId], IsNot(recipientId));
    SelectAll(selected, IsNot(recipientId));
    assert Select([recipientId], IsNot(recipientId)) == [];
  }

  // ---------------------------------------------------------------------------
  // The request bodies of the send button

  /** The body of one POST /api/sms/send request. */
  datatype SendPayload = SendPayload(recipientId: string, phone: string, message: string)

  /** A row of the page's combined recipient list: the fetched farmers, then the fetched users. */
  datatype Recipient = FarmerRecipient(farmer: Farmer) | UserRecipient(user: User)

  function RecipientId(r: Recipient): string {
    match r
    case FarmerRecipient(f) => f.id
    case UserRecipient(u) => u.id
  }

  /** A farmer row has no phone field; a user's phone may be null. */
  function RecipientPhone(r: Recipient): Option<string> {
    match r
    case FarmerRecipient(_) => None
    case UserRecipient(u) => u.phone
  }

  function Recipients(farmers: seq<Farmer>, users: seq<User>): (r: seq<Recipient>)
    ensures |r| == |farmers| + |users|
    ensures forall i :: 0 <= i < |farmers| ==> r[i] == FarmerRecipient(farmers[i])
    ensures forall i :: 0 <= i < |users| ==> r[|farmers| + i] == UserRecipient(users[i])
  {
    seq(|farmers|, i requires 0 <= i < |farmers| => FarmerRecipient(farmers[i]))
    + seq(|users|, i requires 0 <= i < |users| => UserRecipient(users[i]))
  }

  function HasId(id: string): Recipient -> bool {
    r => RecipientId(r) == id
  }

  /** The phone used for one selected id: the first recipient with that id, if it has a
      non-empty phone; the form's phone otherwise. */
  function PhoneFor(recipientId: string, formPhone: string, farmers: seq<Farmer>, users: seq<User>)
    : (phone: string)
    ensures phone == formPhone || exists u :: u in users && u.id == recipientId && u.phone == Some(phone) && phone != ""
    ensures (forall u :: u in users && u.id == recipientId ==> !Truthy(u.phone)) ==> phone == formPhone
  {
    var all := Recipients(farmers, users);
    var found := First(all, HasId(recipientId));
    if found.Some? && Truthy(RecipientPhone(found.value)) then
      assert exists u :: u in users && u.id == recipientId && u.phone == RecipientPhone(found.value) by {
        var i :| 0 <= i < |all| && all[i] == found.value && HasId(recipientId)(all[i]);
        assert all[i] == UserRecipient(users[i - |farmers|]);
      }
      RecipientPhone(found.value).value
    else formPhone
  }

  /** A group send with a non-empty selection posts one body per selected id, in selection order;
      any other send posts one body for the form's recipient, "unknown" when none is given. */
  function SmsPayloads(data: SmsFormData, selected: seq<string>, farmers: seq<Farmer>, users: seq<User>)
    : (r: seq<SendPayload>)
    ensures forall i :: 0 <= i < |r| ==> r[i].message == data.message
    ensures data.recipientType == Group && selected != [] ==>
              && |r| == |selected|
              && forall i :: 0 <= i < |r| ==>
                   && r[i].recipientId == selected[i]
                   && r[i].phone == PhoneFor(selected[i], data.phone, farmers, users)
    ensures !(data.recipientType == Group && selected != []) ==>
              && |r| == 1
              && r[0].phone == data.phone
              && r[0].recipientId == (if Truthy(data.recipientId) then data.recipientId.value else "unknown")
  {
    if data.recipientType == Group && |selected| > 0 then
      seq(|selected|, i requires 0 <= i < |selected| =>
        SendPayload(selected[i], PhoneFor(selected[i], data.phone, farmers, users), data.message))
    else
      [SendPayload(if Truthy(data.recipientId) then data.recipientId.value else "unknown", data.phone, data.message)]
  }

  /** Farmers come first in the lookup and carry no phone, so a selected id that names a farmer
      is always sent to the form's phone, even when a user with the same id has one. */
  lemma FarmerRecipientUsesFormPhone(recipientId: string, formPhone: string, farmers: seq<Farmer>, users: seq<User>,
                                     k: nat)
    requires k < |farmers| && farmers[k].id == recipientId
    requires forall j :: 0 <= j < k ==> farmers[j].id != recipientId
    ensures PhoneFor(recipientId, formPhone, farmers, users) == formPhone
  {
    var all := Recipients(farmers, users);
    FirstAt(all, HasId(recipientId), k);
  }

  /** An id that names no farmer and whose first user has a non-empty phone is sent to that phone. */
  lemma UserRecipientUsesOwnPhone(recipientId: string, formPhone: string, farmers: seq<Farmer>, users: seq<User>,
                                  k: nat)
    requires forall j :: 0 <= j < |farmers| ==> farmers[j].id != recipientId
    requires k < |users| && users[k].id == recipientId && Truthy(users[k].phone)
    requires forall j :: 0 <= j < k ==> users[j].id != recipientId
    ensures PhoneFor(recipientId, formPhone, farmers, users) == users[k].phone.value
  {
    var all := Recipients(farmers, users);
    forall j | 0 <= j < |farmers| + k ensures !HasId(recipientId)(all[j]) {
      if j >= |farmers| {
        assert all[j] == UserRecipient(users[j - |farmers|]);
      }
    }
    FirstAt(all, HasId(recipientId), |farmers| + k);
  }
}
