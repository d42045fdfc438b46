/**
 * Decoded upstream JSON, as far as the gateway inspects it. A decoded news
 * record is Go's `map[string]interface{}`: string keys, loosely typed values.
 * Only the distinction the gateway draws is kept: a string, a number, or
 * anything else (bool, null, array, object).
 */
module Json {

  datatype JValue = JStr(str: string) | JNum(num: int) | JOther

  type Record = map<string, JValue>
}
