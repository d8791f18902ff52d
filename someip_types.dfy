/** SOME/IP header code tables: the Message Type and Return Code header
    fields of the AUTOSAR SOME/IP Protocol Specification (PRS_SOMEIP,
    section 4.1.2), their conversions from and to a header byte, and the
    default header. */
module SomeIpTypes {

  type u8 = x: int | 0 <= x < 0x100
  type u16 = x: int | 0 <= x < 0x1_0000
  type u32 = x: int | 0 <= x < 0x1_0000_0000

  type ServiceId = u16
  type InstanceId = u16
  type MethodId = u16
  type ClientId = u16
  type SessionId = u16
  type ProtocolVersion = u8
  type InterfaceVersion = u8
  type MajorVersion = u8
  type MinorVersion = u32
  type Port = u16

  // ---------------------------------------------------------------- ReturnCode

  /** Whether a request was processed successfully. The sixteen named codes
      occupy 0x00..0x0f; `Reserved` and `Unknown` carry the raw byte. */
  datatype ReturnCode =
    | Ok | NotOk | UnknownService | UnknownMethod | NotReady | NotReachable
    | Timeout | WrongProtocolVersion | WrongInterfaceVersion | MalformedMessage
    | WrongMessageType | E2eRepeated | E2eWrongSequence | E2e | E2eNotAvailable
    | E2eNoNewData
    | Reserved(code: u8)
    | Unknown(code: u8)

  /** One of the sixteen codes the protocol names. */
  predicate IsNamedCode(c: ReturnCode) {
    !c.Reserved? && !c.Unknown?
  }

  /** The bytes the protocol reserves for future codes. */
  predicate IsReservedByte(b: int) {
    0x10 <= b <= 0x5e
  }

  /** A code whose raw byte lies in the range its variant stands for. */
  predicate WellFormedCode(c: ReturnCode) {
    match c
    case Reserved(n) => IsReservedByte(n)
    case Unknown(n) => n >= 0x5f
    case _ => true
  }

  /** `From<u8> for ReturnCode`. */
  function ReturnCodeFromByte(b: u8): (c: ReturnCode)
    ensures b < 0x10 <==> IsNamedCode(c)
    ensures IsReservedByte(b) <==> c == Reserved(b)
    ensures b >= 0x5f <==> c == ReturnCode.Unknown(b)
    ensures WellFormedCode(c)
  {
    match b
    case 0x00 => Ok
    case 0x01 => NotOk
    case 0x02 => UnknownService
    case 0x03 => UnknownMethod
    case 0x04 => NotReady
    case 0x05 => NotReachable
    case 0x06 => Timeout
    case 0x07 => WrongProtocolVersion
    case 0x08 => WrongInterfaceVersion
    case 0x09 => MalformedMessage
    case 0x0a => WrongMessageType
    case 0x0b => E2eRepeated
    case 0x0c => E2eWrongSequence
    case 0x0d => E2e
    case 0x0e => E2eNotAvailable
    case 0x0f => E2eNoNewData
    case _ => if IsReservedByte(b) then Reserved(b) else ReturnCode.Unknown(b)
  }

  /** `From<ReturnCode> for u8`: the raw byte of `Reserved` and `Unknown`
      is written back as it is, whatever its range. */
  function ReturnCodeToByte(c: ReturnCode): (b: u8)
    ensures IsNamedCode(c) <==> b < 0x10 && WellFormedCode(c)
  {
    match c
    case Ok => 0x00
    case NotOk => 0x01
    case UnknownService => 0x02
    case UnknownMethod => 0x03
    case NotReady => 0x04
    case NotReachable => 0x05
    case Timeout => 0x06
    case WrongProtocolVersion => 0x07
    case WrongInterfaceVersion => 0x08
    case MalformedMessage => 0x09
    case WrongMessageType => 0x0a
    case E2eRepeated => 0x0b
    case E2eWrongSequence => 0x0c
    case E2e => 0x0d
    case E2eNotAvailable => 0x0e
    case E2eNoNewData => 0x0f
    case Reserved(x) => x
    case Unknown(x) => x
  }

  /** Every header byte survives the trip through `ReturnCode`. */
  lemma ReturnCodeByteRoundTrip(b: u8)
    ensures ReturnCodeToByte(ReturnCodeFromByte(b)) == b
  {
  }

  /** A code survives the trip through its byte exactly when it is well
      formed; `Reserved(0x01)` is the simplest code that does not. */
  lemma ReturnCodeRoundTrip(c: ReturnCode)
    ensures ReturnCodeFromByte(ReturnCodeToByte(c)) == c <==> WellFormedCode(c)
  {
    if WellFormedCode(c) {
      match c
      case Reserved(n) =>
      case Unknown(n) =>
      case _ =>
    }
  }

  lemma ReservedLowByteDoesNotRoundTrip()
    ensures ReturnCodeFromByte(ReturnCodeToByte(Reserved(0x01))) == NotOk
  {
  }

  // --------------------------------------------------------------- MessageType

  datatype MessageType =
    | Request | RequestNoReturn | Notification | Response | Error
    | TpRequest | TpRequestNoReturn | TpNotification | TpResponse | TpError
    | Unknown(code: u8)

  /** The bytes of the ten named message types. */
  predicate IsNamedTypeByte(b: int) {
    b in {0x00, 0x01, 0x02, 0x80, 0x81, 0x20, 0x21, 0x22, 0xa0, 0xa1}
  }

  /** `Unknown` is well formed only when its byte is not one of the named ones. */
  predicate WellFormedType(t: MessageType) {
    t.Unknown? ==> !IsNamedTypeByte(t.code)
  }

  /** `From<u8> for MessageType`. */
  function MessageTypeFromByte(b: u8): (t: MessageType)
    ensures IsNamedTypeByte(b) <==> !t.Unknown?
    ensures !IsNamedTypeByte(b) ==> t == MessageType.Unknown(b)
    ensures WellFormedType(t)
  {
    match b
    case 0x00 => Request
    case 0x01 => RequestNoReturn
    case 0x02 => Notification
    case 0x80 => Response
    case 0x81 => Error
    case 0x20 => TpRequest
    case 0x21 => TpRequestNoReturn
    case 0x22 => TpNotification
    case 0xa0 => TpResponse
    case 0xa1 => TpError
    case _ => MessageType.Unknown(b)
  }

  /** `From<MessageType> for u8`. */
  function MessageTypeToByte(t: MessageType): (b: u8)
    ensures !t.Unknown? ==> IsNamedTypeByte(b)
  {
    match t
    case Request => 0x00
    case RequestNoReturn => 0x01
    case Notification => 0x02
    case Response => 0x80
    case Error => 0x81
    case TpRequest => 0x20
    case TpRequestNoReturn => 0x21
    case TpNotification => 0x22
    case TpResponse => 0xa0
    case TpError => 0xa1
    case Unknown(x) => x
  }

  lemma MessageTypeByteRoundTrip(b: u8)
    ensures MessageTypeToByte(MessageTypeFromByte(b)) == b
  {
  }

  /** The named types round-trip; `Unknown` does exactly when its byte is
      not claimed by a named type. */
  lemma MessageTypeRoundTrip(t: MessageType)
    ensures MessageTypeFromByte(MessageTypeToByte(t)) == t <==> WellFormedType(t)
  {
  }

  /** The five message types that have a segmented (TP) counterpart. */
  predicate IsBaseType(t: MessageType) {
    t in {Request, RequestNoReturn, Notification, Response, Error}
  }

  /** The segmented (TP) counterpart of a base message type. */
  function TpOf(t: MessageType): MessageType
    requires IsBaseType(t)
  {
    match t
    case Request => TpRequest
    case RequestNoReturn => TpRequestNoReturn
    case Notification => TpNotification
    case Response => TpResponse
    case Error => TpError
  }

  /** The TP byte is the base byte with the TP flag 0x20 set, and the base
      byte has that flag clear. */
  lemma TpFlag(t: MessageType)
    requires IsBaseType(t)
    ensures (MessageTypeToByte(t) as bv8) & 0x20 == 0
    ensures MessageTypeToByte(TpOf(t)) as bv8 == (MessageTypeToByte(t) as bv8) | 0x20
  {
  }

  // ------------------------------------------------------------------- header

  datatype SomeIpHeader = SomeIpHeader(
    serviceId: ServiceId,
    methodId: MethodId,
    clientId: ClientId,
    sessionId: SessionId,
    protocolVersion: ProtocolVersion,
    interfaceVersion: InterfaceVersion,
    messageType: MessageType,
    returnCode: ReturnCode)

  /** The derived `Default` of the header: every field at its type's default. */
  function DefaultHeader(): SomeIpHeader {
    SomeIpHeader(0, 0, 0, 0, 0, 0, Request, Ok)
  }

  /** The default header is all zeros on the wire: every id is zero and the
      default message type and return code both encode as 0x00. */
  lemma DefaultHeaderIsZero()
    ensures var h := DefaultHeader();
      h.serviceId == h.methodId == h.clientId == h.sessionId == 0
      && h.protocolVersion == h.interfaceVersion == 0
      && MessageTypeToByte(h.messageType) == 0 && h.messageType == Request
      && ReturnCodeToByte(h.returnCode) == 0 && h.returnCode == Ok
  {
  }
}
