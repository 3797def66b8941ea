/**
 * The backend's upsert of a user to the chat platform: the record is copied,
 * an oversized `image` is deleted from the copy, the copy is sent, and the
 * caller's own record is returned untouched.
 */
module StreamBackend {
  import opened Js

  /** The values a user record's fields hold. */
  datatype Value = Str(s: string) | Num(n: int) | Bool(b: bool) | Null

  /** The largest `image`, in UTF-16 code units (JavaScript's `length`), the platform is sent. */
  const ImageLimit: nat := 4000

  /** `image && image.length > 4000`: only a string has a length, and a string that long is truthy. */
  predicate Oversized(fields: map<string, Value>) {
    "image" in fields && fields["image"].Str? && |Utf16(fields["image"].s)| > ImageLimit
  }

  /** The record the platform receives. */
  function Trimmed(fields: map<string, Value>): map<string, Value> {
    if Oversized(fields) then fields - {"image"} else fields
  }

  /** Every field other than `image` is forwarded with its value. */
  lemma TrimmedKeepsOtherFields(fields: map<string, Value>, k: string)
    requires k != "image"
    ensures k in Trimmed(fields) <==> k in fields
    ensures k in fields ==> Trimmed(fields)[k] == fields[k]
  {
  }

  /** The forwarded `image`, when there is one, is the caller's, and a string one is at most 4000 code units long. */
  lemma TrimmedImageFits(fields: map<string, Value>)
    ensures "image" in Trimmed(fields) ==> "image" in fields && Trimmed(fields)["image"] == fields["image"]
    ensures "image" in Trimmed(fields) && Trimmed(fields)["image"].Str? ==> |Utf16(Trimmed(fields)["image"].s)| <= ImageLimit
  {
  }

  /**
   * The record goes out unchanged exactly when it has no string `image` longer
   * than 4000 code units; an image of exactly 4000 is kept.
   */
  lemma TrimmedUnchangedIff(fields: map<string, Value>)
    ensures Trimmed(fields) == fields <==> !Oversized(fields)
  {
    if Oversized(fields) {
      assert "image" !in Trimmed(fields);
    }
  }

  /** Trimming a trimmed record changes nothing. */
  lemma TrimmedIdempotent(fields: map<string, Value>)
    ensures Trimmed(Trimmed(fields)) == Trimmed(fields)
  {
  }

  /** A JavaScript object: its own properties, which `delete` removes in place. */
  class JsObject {
    var fields: map<string, Value>

    /** `{ ...source }`: a new object with the same own properties. */
    constructor (source: map<string, Value>)
      ensures fields == source
    {
      fields := source;
    }

    method Delete(key: string)
      modifies this
      ensures fields == old(fields) - {key}
    {
      fields := fields - {key};
    }
  }

  /**
   * `upsertStreamUser`: the platform receives a copy of the record without an
   * oversized image; on success the caller's own object (its image included)
   * is returned, on failure nothing. The caller's object is never written.
   */
  method UpsertStreamUser(userData: JsObject, upsertSucceeds: bool)
    returns (forwarded: map<string, Value>, result: Option<JsObject>)
    ensures forwarded == Trimmed(userData.fields)
    ensures result == (if upsertSucceeds then Some(userData) else None)
  {
    var streamUser := new JsObject(userData.fields);
    if "image" in streamUser.fields && streamUser.fields["image"].Str?
       && |Utf16(streamUser.fields["image"].s)| > ImageLimit {
      streamUser.Delete("image");
    }
    forwarded := streamUser.fields;
    if upsertSucceeds {
      result := Some(userData);
    } else {
      result := None;
    }
  }
}
