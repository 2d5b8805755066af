/**
 * The settings file `settings.json`: which port the server listens on, read at
 * start-up with a fallback to port 3004, and written back every time.
 *
 * The file is modelled by what `os.Stat`, `os.Open`, `io.ReadAll` and
 * `json.Unmarshal` make of it; its contents are the JSON document they decode,
 * not its lexical syntax.
 */
module Settings {
  import opened Prelude
  import Decimal

  datatype Settings = Settings(port: int)

  /** What `json.Unmarshal` finds where `Settings.Port` is bound: nothing, a Go `int`, or a value it rejects. */
  datatype PortField = NoPort | PortNumber(n: int) | PortInvalid

  /** A decoded JSON document: malformed text, `null`, an object, or a value of another type. */
  datatype Doc = Malformed | NullDoc | ObjectDoc(port: PortField) | OtherDoc

  /** The path `settings.json`: missing, not a regular file, or a regular file that may fail to open or read. */
  datatype Entry = Absent | NotRegular | Regular(opens: bool, contents: Option<Doc>)

  /**
   * How `os.WriteFile` can fail: the open fails and the file is left as it was, or the
   * open (with `O_CREATE|O_TRUNC`) works and a later write or close fails, after the
   * whole document (`whole`) or only a part of it was written.
   */
  datatype WriteFailure = OpenFailed | WriteFailed(whole: bool)

  /**
   * What a write cut short leaves: the document, or a part of it. No proper prefix of
   * a JSON object, `null` included, is a JSON document, so a part is malformed.
   */
  function PartlyWritten(d: Doc, whole: bool): (r: Doc)
    ensures !whole ==> Unmarshal(r).None?
    ensures whole ==> r == d
  {
    if whole then d else Malformed
  }

  const DefaultPort := 3004

  function Default(): (s: Settings)
    ensures s.port == 3004
  {
    Settings(DefaultPort)
  }

  /**
   * `json.Unmarshal(b, &s)` with `s` a nil `*Settings`: `None` is an error, `Some(None)`
   * leaves `s` nil, `Some(Some(v))` is the struct it allocated and filled.
   */
  function Unmarshal(d: Doc): (r: Option<Option<Settings>>)
    ensures r.Some? && r.value.Some? ==> d.ObjectDoc?
    ensures r == Some(None) <==> d.NullDoc?
  {
    match d
    case Malformed => None
    case OtherDoc => None
    case NullDoc => Some(None)
    case ObjectDoc(NoPort) => Some(Some(Settings(0)))
    case ObjectDoc(PortInvalid) => None
    case ObjectDoc(PortNumber(n)) => if Decimal.InInt64(n) then Some(Some(Settings(n))) else None
  }

  /** `json.MarshalIndent(&s, ...)`: a nil pointer is `null`, a struct is an object with its port. */
  function Marshal(s: Option<Settings>): (d: Doc)
    ensures s.None? <==> d.NullDoc?
  {
    match s
    case None => NullDoc
    case Some(v) => ObjectDoc(PortNumber(v.port))
  }

  /** Round trip: what `writeSettings` writes decodes to the same settings, for a Go `int` port. */
  lemma UnmarshalMarshal(s: Option<Settings>)
    requires s.Some? ==> Decimal.InInt64(s.value.port)
    ensures Unmarshal(Marshal(s)) == Some(s)
  {
  }

  /**
   * The value `LoadSettings` returns as the source is written; `None` is a nil pointer.
   * Every failure on the way falls back to the defaults, but a document that is just
   * `null` decodes without error and leaves the pointer nil.
   */
  function LoadedAsWritten(e: Entry): (r: Option<Settings>)
    ensures r.None? <==> e == Regular(true, Some(NullDoc))
  {
    match e
    case Absent => Some(Default())
    case NotRegular => Some(Default())
    case Regular(opens, contents) =>
      if !opens || contents.None? then Some(Default())
      else
        match Unmarshal(contents.value)
        case None => Some(Default())
        case Some(s) => s
  }

  /** The input that shows it: a settings file holding `null` loads as a nil pointer. */
  lemma NullLoadsNil()
    ensures LoadedAsWritten(Regular(true, Some(NullDoc))).None?
  {
  }

  /**
   * The settings `LoadSettings` is meant to return: those of the file when it is a
   * readable regular file holding a settings object, the defaults otherwise, `null`
   * included.
   */
  function Loaded(e: Entry): (s: Settings)
    ensures LoadedAsWritten(e).Some? ==> s == LoadedAsWritten(e).value
    ensures LoadedAsWritten(e).None? ==> s == Default()
  {
    match e
    case Absent => Default()
    case NotRegular => Default()
    case Regular(opens, contents) =>
      if !opens || contents.None? then Default()
      else
        match Unmarshal(contents.value)
        case None => Default()
        case Some(None) => Default()
        case Some(Some(s)) => s
  }

  /**
   * A readable regular file holding an object with a Go `int` port yields that port;
   * a missing or non-regular file, a failed open or read and a document that does not
   * decode all yield the defaults.
   */
  lemma LoadedPort(e: Entry, n: int)
    ensures e == Regular(true, Some(ObjectDoc(PortNumber(n)))) && Decimal.InInt64(n) ==> Loaded(e) == Settings(n)
    ensures (!e.Regular? || !e.opens || e.contents.None? || Unmarshal(e.contents.value).None?) ==> Loaded(e) == Default()
  {
  }

  /** The settings file. */
  class SettingsFile {
    var entry: Entry

    constructor (entry: Entry)
      ensures this.entry == entry
    {
      this.entry := entry;
    }

    /**
     * `writeSettings`: replaces the file with the settings' document. Writing fails
     * when the path is not a regular file or `fault` says so. A failed open changes
     * nothing; a failure after the truncating open leaves the file holding the whole
     * document or only a part of it.
     */
    method WriteSettings(s: Settings, fault: Option<WriteFailure>) returns (ok: bool)
      modifies this
      ensures ok <==> fault.None? && !old(entry).NotRegular?
      ensures ok ==> entry == Regular(true, Some(Marshal(Some(s))))
      ensures old(entry).NotRegular? || fault == Some(OpenFailed) ==> entry == old(entry)
      ensures !old(entry).NotRegular? && fault.Some? && fault.value.WriteFailed? ==>
        entry == Regular(true, Some(PartlyWritten(Marshal(Some(s)), fault.value.whole)))
    {
      if entry.NotRegular? || fault == Some(OpenFailed) {
        return false;
      }
      if fault.Some? {
        entry := Regular(true, Some(PartlyWritten(Marshal(Some(s)), fault.value.whole)));
        return false;
      }
      entry := Regular(true, Some(Marshal(Some(s))));
      ok := true;
    }

    /** `defaultSettings`: writes the defaults and returns them whether or not the write worked. */
    method DefaultSettings(writeFault: Option<WriteFailure>) returns (s: Settings)
      modifies this
      ensures s == Default()
      ensures writeFault.None? && !old(entry).NotRegular? ==> entry == Regular(true, Some(Marshal(Some(Default()))))
      ensures old(entry).NotRegular? || writeFault == Some(OpenFailed) ==> entry == old(entry)
      ensures !old(entry).NotRegular? && writeFault.Some? && writeFault.value.WriteFailed? ==>
        entry == Regular(true, Some(PartlyWritten(Marshal(Some(Default())), writeFault.value.whole)))
    {
      s := Default();
      var _ := WriteSettings(s, writeFault);
    }

    /**
     * `LoadSettings`, with a `null` document treated like any other unusable file: the
     * settings are `Loaded` of the file, and the file is rewritten with them; a failed
     * write does not change the result.
     */
    method LoadSettings(writeFault: Option<WriteFailure>) returns (s: Settings)
      modifies this
      ensures s == Loaded(old(entry))
      ensures writeFault.None? && !old(entry).NotRegular? ==> entry == Regular(true, Some(Marshal(Some(s))))
      ensures old(entry).NotRegular? || writeFault == Some(OpenFailed) ==> entry == old(entry)
      ensures !old(entry).NotRegular? && writeFault.Some? && writeFault.value.WriteFailed? ==>
        entry == Regular(true, Some(PartlyWritten(Marshal(Some(s)), writeFault.value.whole)))
    {
      match entry
      case Absent =>
        s := DefaultSettings(writeFault);
      case NotRegular =>
        s := DefaultSettings(writeFault);
      case Regular(opens, contents) =>
        if !opens || contents.None? {
          s := DefaultSettings(writeFault);
          return;
        }
        var decoded := Unmarshal(contents.value);
        if decoded.None? || decoded.value.None? {
          s := DefaultSettings(writeFault);
          return;
        }
        s := decoded.value.value;
        var _ := WriteSettings(s, writeFault);
    }
  }

  /**
   * A write cut short after the truncating open loses the port: the next start-up
   * reads a document that does not decode and falls back to the defaults.
   */
  lemma TruncatedWriteLosesPort(s: Settings)
    ensures Loaded(Regular(true, Some(PartlyWritten(Marshal(Some(s)), false)))) == Default()
    ensures Decimal.InInt64(s.port) ==> Loaded(Regular(true, Some(PartlyWritten(Marshal(Some(s)), true)))) == s
  {
  }

  /** Loading twice gives the same settings: the rewritten file holds what was loaded. */
  lemma LoadIdempotent(e: Entry)
    requires e != NotRegular
    requires Decimal.InInt64(Loaded(e).port)
    ensures Loaded(Regular(true, Some(Marshal(Some(Loaded(e)))))) == Loaded(e)
  {
    UnmarshalMarshal(Some(Loaded(e)));
  }
}
