/**
 * The in-memory state of the two helper classes of js/admin.js: the access
 * token of `GitHubAdmin`, and the selected file, its base64 payload and its
 * sanitized name in `ImageUploader`. Browser storage, the DOM and the
 * network are outside the model; a token read from storage at start-up is
 * a constructor parameter.
 */
module Admin {

  datatype Option<T> = None | Some(value: T)

  /** The browser `File` object the uploader holds, by name only. */
  datatype FileRef = FileRef(name: string)

  /** The object returned by getUploadData(). */
  datatype UploadData = UploadData(filename: string, base64: string)

  /** JavaScript truthiness of a value that is a string or null. */
  predicate Truthy(s: Option<string>)
  {
    s.Some? && s.value != ""
  }

  class GitHubAdmin {
    var token: string

    /** The token kept from an earlier session, or the empty string. */
    constructor (stored: Option<string>)
      ensures stored.Some? ==> token == stored.value
      ensures stored.None? ==> token == "" && !IsAuthenticated()
    {
      token := if stored.Some? then stored.value else "";
    }

    /** isAuthenticated(): a token is present. */
    function IsAuthenticated(): (b: bool)
      reads this
      ensures b <==> token != ""
    {
      Truthy(Some(token))
    }

    /** setToken(t). */
    method SetToken(t: string)
      modifies this
      ensures token == t
      ensures IsAuthenticated() <==> t != ""
    {
      token := t;
    }

    /** clearToken(). */
    method ClearToken()
      modifies this
      ensures token == ""
      ensures !IsAuthenticated()
    {
      token := "";
    }
  }

  class ImageUploader {
    var file: Option<FileRef>
    var base64: Option<string>
    var filename: Option<string>

    /** Nothing selected yet. */
    constructor ()
      ensures file == None && base64 == None && filename == None
      ensures GetUploadData() == None
    {
      file, base64, filename := None, None, None;
    }

    /** getUploadData(): both the payload and the name, or nothing. */
    function GetUploadData(): (r: Option<UploadData>)
      reads this
      ensures r.None? <==> !Truthy(base64) || !Truthy(filename)
      ensures r.Some? ==> r.value.filename == filename.value && r.value.base64 == base64.value
      ensures r.Some? ==> r.value.filename != "" && r.value.base64 != ""
    {
      if !Truthy(base64) || !Truthy(filename) then None
      else Some(UploadData(filename.value, base64.value))
    }

    /** clear(): forget the selection. */
    method Clear()
      modifies this
      ensures file == None && base64 == None && filename == None
      ensures GetUploadData() == None
    {
      file := None;
      base64 := None;
      filename := None;
    }
  }
}
