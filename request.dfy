/**
 * coap_new_get of the coap client driver: the first request the client sends,
 * a Confirmable GET that carries the URI argument in at most one option.
 *
 * The PDU is abstract: a message type, a code and the options in the order they
 * were added. Its wire encoding, and the numeric values of the type, code and
 * option numbers, belong to the CoAP library headers, which are not part of this model.
 */
module Request {
  import opened Wrappers
  import opened CStrings

  datatype MessageType = Confirmable | NonConfirmable | Acknowledgement | Reset

  datatype Code = Get | Post | Put | Delete | OtherCode(value: nat)

  datatype OptionNumber = UriFull | UriPath | OtherOption(number: nat)

  /** An option as coap_add_option receives it; its length is |value|. */
  datatype CoapOption = CoapOption(number: OptionNumber, value: seq<char>)

  datatype Pdu = Pdu(msgType: MessageType, code: Code, options: seq<CoapOption>)

  /** coap_add_option: the option is appended after those already added. */
  function AddOption(pdu: Pdu, number: OptionNumber, value: seq<char>): (r: Pdu)
    ensures r.msgType == pdu.msgType && r.code == pdu.code
    ensures |r.options| == |pdu.options| + 1 && r.options[..|pdu.options|] == pdu.options
    ensures r.options[|pdu.options|] == CoapOption(number, value)
  {
    pdu.(options := pdu.options + [CoapOption(number, value)])
  }

  /**
   * The options coap_new_get adds for the argument uri (None for a null
   * pointer): a string not starting with '/' whole as Uri-Full; one starting
   * with '/' as Uri-Path without that slash, unless nothing follows it.
   */
  function GetOptions(uri: Option<seq<char>>): (opts: seq<CoapOption>)
    ensures |opts| <= 1
    ensures opts == [] <==> uri == None || uri.value == [] || uri.value == "/"
    ensures forall o :: o in opts ==>
      || (o.number == UriFull && o.value == uri.value && uri.value[0] != '/')
      || (o.number == UriPath && ['/'] + o.value == uri.value)
  {
    match uri
    case None => []
    case Some(u) =>
      if u == [] then []
      else if u[0] != '/' then [CoapOption(UriFull, u)]
      else if u[1..] == [] then []
      else [CoapOption(UriPath, u[1..])]
  }

  /**
   * The request target a receiver reads back from the options: a Uri-Full
   * value as it stands, a Uri-Path value below the root, the root otherwise.
   */
  function RequestTarget(opts: seq<CoapOption>): seq<char>
  {
    if opts == [] then "/"
    else if opts[0].number == UriFull then opts[0].value
    else if opts[0].number == UriPath then ['/'] + opts[0].value
    else RequestTarget(opts[1..])
  }

  /** Reading the target back from the options gives the argument, with "" standing for the root. */
  lemma {:induction false} GetOptionsRoundTrip(uri: seq<char>)
    ensures RequestTarget(GetOptions(Some(uri))) == if uri == [] then "/" else uri
  {
    if uri != [] && uri[0] == '/' && uri[1..] == [] {
      assert uri == "/";
    } else if uri != [] && uri[0] == '/' {
      assert ['/'] + uri[1..] == uri;
    }
  }

  /**
   * coap_new_get: newPdu is what coap_new_pdu returned (None when it failed).
   * The request is Confirmable GET, keeps what else coap_new_pdu set up, and
   * gets the options GetOptions gives, after any it already had.
   */
  method NewGet(uri: Option<seq<char>>, newPdu: Option<Pdu>) returns (r: Option<Pdu>)
    requires uri.Some? ==> NUL !in uri.value
    ensures r.None? <==> newPdu.None?
    ensures r.Some? ==>
      && r.value.msgType == Confirmable
      && r.value.code == Get
      && r.value.options == newPdu.value.options + GetOptions(uri)
  {
    if newPdu.None? {
      return None;
    }
    var pdu := newPdu.value;
    pdu := pdu.(msgType := Confirmable);
    pdu := pdu.(code := Get);
    if uri.Some? && |uri.value| > 0 {
      var u := uri.value;
      if u[0] != '/' {
        pdu := AddOption(pdu, UriFull, u);
      } else {
        u := u[1..];
        if |u| > 0 {
          pdu := AddOption(pdu, UriPath, u);
        }
      }
    }
    r := Some(pdu);
  }
}
