/** The chat panel's send path (client/src/components/WhatsAppChat.jsx):
    the phone is reduced to its digits, a blank message is ignored, an
    unusable phone is reported, and otherwise the message is posted to the
    server's send route. The outcome of the request is a parameter. */
module WhatsAppChat {
  import opened Wrappers
  import opened Js
  import Seqs
  import Strings

  /** `formatPhone`: `''` for a missing or empty phone, else its digits. */
  function FormatPhone(phone: Option<string>): (r: string)
    ensures !Truthy(phone) ==> r == ""
    ensures Strings.AllDigits(r)
    ensures Truthy(phone) ==> Seqs.IsSubsequence(r, phone.value)
                              && forall c :: multiset(r)[c] == if Strings.IsDigit(c) then multiset(phone.value)[c] else 0
  {
    if !Truthy(phone) then "" else Strings.Digits(phone.value)
  }

  /** Formatting a formatted phone changes nothing. */
  lemma FormatPhoneIdempotent(phone: Option<string>)
    ensures FormatPhone(Some(FormatPhone(phone))) == FormatPhone(phone)
  {
    if FormatPhone(phone) != "" {
      Strings.DigitsOfAllDigits(FormatPhone(phone));
    }
  }

  /** The component's state that sending touches. */
  datatype ChatState = ChatState(message: string, sending: bool, error: string, success: string)

  /** The body posted to `/api/evolution/text/send`. */
  datatype SendRequest = SendRequest(instanceName: Option<string>, number: string, text: string)

  datatype Sent = Sent(state: ChatState, request: Option<SendRequest>)

  const InvalidPhone := "Número de teléfono inválido"
  const SendFailed := "Error al enviar mensaje. Verifique la conexión."
  const SendSucceeded := "Mensaje enviado"

  /** `handleSendMessage`, where `delivered` is whether the post succeeded. */
  function SendMessage(st: ChatState, leadPhone: Option<string>, instanceName: Option<string>, delivered: bool)
    : (r: Sent)
    ensures Strings.Trim(st.message) == "" ==> r == Sent(st, None)
    ensures r.request.Some? <==> Strings.Trim(st.message) != "" && FormatPhone(leadPhone) != ""
    ensures r.request.Some? ==> r.request.value == SendRequest(instanceName, FormatPhone(leadPhone), st.message)
    ensures Strings.Trim(st.message) != "" ==> !r.state.sending
    ensures r.state.message == if r.request.Some? && delivered then "" else st.message
    ensures Strings.Trim(st.message) != "" && FormatPhone(leadPhone) == "" ==> r.state.error == InvalidPhone
    ensures r.request.Some? ==> (r.state.error == "" <==> delivered)
  {
    if Strings.Trim(st.message) == "" then Sent(st, None)
    else
      var cleared := st.(sending := true, error := "", success := "");
      var number := FormatPhone(leadPhone);
      if number == "" then Sent(cleared.(error := InvalidPhone, sending := false), None)
      else
        var request := SendRequest(instanceName, number, st.message);
        if delivered then Sent(cleared.(message := "", success := SendSucceeded, sending := false), Some(request))
        else Sent(cleared.(error := SendFailed, sending := false), Some(request))
  }

  /** A message of nothing but white space is never sent and changes nothing. */
  lemma BlankMessageIgnored(st: ChatState, leadPhone: Option<string>, instanceName: Option<string>, delivered: bool)
    requires Strings.AllSpace(st.message)
    ensures SendMessage(st, leadPhone, instanceName, delivered) == Sent(st, None)
  {
    Strings.TrimEmptyIffAllSpace(st.message);
  }

  /** The number posted is always digits only, and the text is the message as typed. */
  lemma PostedNumberIsDigits(st: ChatState, leadPhone: Option<string>, instanceName: Option<string>, delivered: bool)
    requires SendMessage(st, leadPhone, instanceName, delivered).request.Some?
    ensures var req := SendMessage(st, leadPhone, instanceName, delivered).request.value;
            Strings.AllDigits(req.number) && req.number != "" && req.text == st.message
            && req.number == Strings.Digits(leadPhone.value)
  {
  }
}
