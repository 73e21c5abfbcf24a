/** Document identifiers and the syntactic check `mongoose.Types.ObjectId.isValid` that
    the controllers run before querying. */
module ObjectIds {

  import opened Js

  /** The `_id` of a document, as the string a request carries. */
  type Id = string

  predicate IsHexDigit(c: char)
  {
    '0' <= c <= '9' || 'a' <= c <= 'f' || 'A' <= c <= 'F'
  }

  /** `ObjectId.isValid(s)` on a string: 24 hexadecimal digits. */
  predicate IsValidObjectId(s: string)
  {
    |s| == 24 && forall i :: 0 <= i < |s| ==> IsHexDigit(s[i])
  }

  /** `ObjectId.isValid(x)` on a field that may be undefined: `undefined` is not valid. */
  predicate IsValidField(o: Option<string>)
  {
    o.Some? && IsValidObjectId(o.value)
  }
}
