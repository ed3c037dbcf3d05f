/**
 * `MessageAttributeMappingMessageHandler`: a class-level listener routes each
 * message to one of its handler methods by the value of the `messageType`
 * message attribute, falling back to the default handler method.
 */
module Routing {
  import opened JavaLang
  import opened SqsTypes

  const MESSAGE_TYPE_ATTRIBUTE: string := "messageType"
  const MAPPING_NOT_FOUND: string := "unable to handle sqs message - method mapping not found"

  /** `MethodMapping`: handler methods by message type, and the optional default method. */
  datatype MethodMapping = MethodMapping(
    attributeMethodMap: map<string, MethodRef>,
    defaultMethod: Option<MethodRef>)
  {
    /** `getMethod`: `attributeMethodMap.getOrDefault(value, defaultMethod)`. */
    function GetMethod(value: string): (r: Option<MethodRef>)
      ensures value in attributeMethodMap ==> r == Some(attributeMethodMap[value])
      ensures value !in attributeMethodMap ==> r == defaultMethod
    {
      if value in attributeMethodMap then Some(attributeMethodMap[value]) else defaultMethod
    }

    /** `getDefaultMethod`: the method an untyped or unmapped message goes to, if any. */
    function GetDefaultMethod(): (r: Option<MethodRef>)
      ensures r.Some? ==> Routes(r.value)
      ensures forall t :: t !in attributeMethodMap ==> GetMethod(t) == r
    {
      defaultMethod
    }

    /** A method this mapping may route to. */
    predicate Routes(m: MethodRef) {
      m in attributeMethodMap.Values || defaultMethod == Some(m)
    }
  }

  /**
   * `handle`: the method that is invoked for the message, or the exception
   * raised when no method applies. An attribute without a string value looks
   * up a null key, which the `Map.copyOf` map of the mapping rejects with a
   * NullPointerException, whatever the default method.
   */
  function Handle(mapping: MethodMapping, message: Message): (r: Result<MethodRef>)
    ensures r.Success? ==> mapping.Routes(r.value)
    ensures r.Failure? ==> r.error.IllegalState? || r.error == NullPointer
  {
    var attributes := message.messageAttributes;
    if MESSAGE_TYPE_ATTRIBUTE !in attributes then
      match mapping.GetDefaultMethod()
      case Some(m) => Success(m)
      case None => Failure(IllegalState(MAPPING_NOT_FOUND))
    else
      match attributes[MESSAGE_TYPE_ATTRIBUTE]
      case None => Failure(NullPointer)
      case Some(value) =>
        match mapping.GetMethod(value)
        case Some(m) => Success(m)
        case None => Failure(IllegalState(MAPPING_NOT_FOUND + " for " + value))
  }

  /**
   * The routing attribute of the message: `None` when it carries none,
   * `Some(None)` when its value is not a string, `Some(Some(t))` for type `t`.
   */
  function MessageType(message: Message): Option<Option<string>> {
    if MESSAGE_TYPE_ATTRIBUTE in message.messageAttributes
    then Some(message.messageAttributes[MESSAGE_TYPE_ATTRIBUTE]) else None
  }

  /** Without a `messageType` attribute the default method is invoked. */
  lemma HandleUntypedUsesDefault(mapping: MethodMapping, message: Message, m: MethodRef)
    requires MessageType(message) == None && mapping.defaultMethod == Some(m)
    ensures Handle(mapping, message) == Success(m)
  {
  }

  /** Without a `messageType` attribute and without a default method, handling fails. */
  lemma HandleUntypedWithoutDefaultFails(mapping: MethodMapping, message: Message)
    requires MessageType(message) == None && mapping.defaultMethod == None
    ensures Handle(mapping, message) == Failure(IllegalState(MAPPING_NOT_FOUND))
  {
  }

  /** A mapped `messageType` invokes the method mapped to it, whatever the default. */
  lemma HandleMappedType(mapping: MethodMapping, message: Message, t: string)
    requires MessageType(message) == Some(Some(t)) && t in mapping.attributeMethodMap
    ensures Handle(mapping, message) == Success(mapping.attributeMethodMap[t])
  {
  }

  /** An unmapped `messageType` falls back to the default method. */
  lemma HandleUnmappedTypeUsesDefault(mapping: MethodMapping, message: Message, t: string, m: MethodRef)
    requires MessageType(message) == Some(Some(t)) && t !in mapping.attributeMethodMap
    requires mapping.defaultMethod == Some(m)
    ensures Handle(mapping, message) == Success(m)
  {
  }

  /** An unmapped `messageType` without a default method fails, naming the type. */
  lemma HandleUnmappedTypeWithoutDefaultFails(mapping: MethodMapping, message: Message, t: string)
    requires MessageType(message) == Some(Some(t)) && t !in mapping.attributeMethodMap
    requires mapping.defaultMethod == None
    ensures Handle(mapping, message)
         == Failure(IllegalState("unable to handle sqs message - method mapping not found for " + t))
  {
  }

  /** A `messageType` attribute without a string value is a NullPointerException, even with a default method. */
  lemma HandleNullTypeFails(mapping: MethodMapping, message: Message)
    requires MessageType(message) == Some(None)
    ensures Handle(mapping, message) == Failure(NullPointer)
  {
  }

  /** Handling succeeds exactly when the type is readable and some method applies to the message. */
  lemma HandleSucceedsIffMethodApplies(mapping: MethodMapping, message: Message)
    ensures Handle(mapping, message).Success?
        <==> MessageType(message) != Some(None)
             && (mapping.defaultMethod.Some?
                 || (MessageType(message).Some? && MessageType(message).value.value in mapping.attributeMethodMap))
  {
  }
}
