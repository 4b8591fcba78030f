/** Values shared by the chat-turn components: identifiers, JSON-like values,
    the affect reading produced by emotion analysis, and the stored message row. */
module Records {

  datatype Option<T> = None | Some(value: T) {
    function GetOr(default: T): T {
      match this
      case Some(v) => v
      case None => default
    }
  }

  datatype Result<T, E> = Ok(value: T) | Err(error: E)

  /** A row or object identifier (uuid4); only compared for equality. */
  datatype Uuid = Uuid(bits: nat)

  /** A point in time (datetime.utcnow()); only copied, never inspected. */
  datatype Timestamp = Timestamp(ticks: int)

  /** A decoded JSON value (floating-point numbers are not represented). */
  datatype JsonValue =
    | JNull
    | JBool(b: bool)
    | JInt(i: int)
    | JStr(s: string)
    | JArray(items: seq<JsonValue>)
    | JObject(fields: map<string, JsonValue>)

  /** Python truthiness of a decoded JSON value. */
  predicate Truthy(v: JsonValue) {
    match v
    case JNull => false
    case JBool(b) => b
    case JInt(i) => i != 0
    case JStr(s) => s != ""
    case JArray(items) => items != []
    case JObject(fields) => fields != map[]
  }

  /** dict.get(key) on a JSON-like dictionary. */
  function Get(m: map<string, JsonValue>, key: string): Option<JsonValue> {
    if key in m then Some(m[key]) else None
  }

  /** The emotion dictionary: the four keys the core reads (None when the key
      is absent) and whatever other keys the dictionary carries. */
  datatype EmotionData = EmotionData(
    emotionState: Option<string>,
    energyLevel: Option<int>,
    urgencyLevel: Option<string>,
    detectedThemes: Option<seq<string>>,
    otherKeys: map<string, JsonValue>)
  {
    /** A dictionary is truthy when it has at least one key. */
    predicate IsNonEmpty() {
      emotionState.Some? || energyLevel.Some? || urgencyLevel.Some?
      || detectedThemes.Some? || otherKeys != map[]
    }
  }

  /** A row of the messages table, as the core builds and reads it. */
  datatype Message = Message(
    conversationId: Uuid,
    userId: Uuid,
    role: string,
    content: string,
    contentType: string,
    sequenceNumber: int,
    emotionState: Option<string>,
    energyLevel: Option<int>,
    urgencyLevel: Option<string>,
    detectedThemes: Option<seq<string>>,
    modelUsed: Option<JsonValue>,
    promptTokens: Option<JsonValue>,
    completionTokens: Option<JsonValue>,
    responseTimeMs: Option<JsonValue>)
}
