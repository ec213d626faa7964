// The bitcode translator: bitcode written for an API level older than 14 is
// re-read with the LLVM 2.7 reader and written out again; newer bitcode is
// passed through unchanged.  The re-reading and re-writing is a parameter
// (`upgrade`): it either fails or produces the new bitcode.

module BitcodeTranslation {
  import opened Common

  const MinimumApiVersion: nat := 11
  const CurrentApiVersion: nat := 10000
  /** The least version LLVM's own reader accepts without translation. */
  const MinimumUntranslatedVersion: nat := 14

  /** The versions `translate` accepts: the development version 10000, or
    * one from 11 up to the build's maximum API level. */
  predicate VersionAccepted(version: nat, maximumApiVersion: nat)
  {
    version == CurrentApiVersion ||
    (MinimumApiVersion <= version && version <= maximumApiVersion)
  }

  /** Exactly the Honeycomb versions 11 to 13 that the build accepts are
    * re-read; every other accepted version is passed through, and the
    * development version is accepted whatever the maximum. */
  lemma TranslatedVersions(version: nat, maximumApiVersion: nat)
    ensures VersionAccepted(version, maximumApiVersion) && version < MinimumUntranslatedVersion <==>
      11 <= version <= 13 && version <= maximumApiVersion
    ensures VersionAccepted(CurrentApiVersion, maximumApiVersion)
    ensures version < MinimumApiVersion ==> !VersionAccepted(version, maximumApiVersion)
  {
  }

  /** What the translated-bitcode pointer holds: nothing yet, the input
    * itself, or a buffer the translator allocated. */
  datatype Translated = NoBuffer | InputAlias | OwnedCopy(bytes: seq<byte>)

  class Translator {
    /** The input bitcode; `None` is a NULL pointer. */
    const bitcode: Option<seq<byte>>
    const version: nat
    /** BCINFO_API_VERSION, which the build defines. */
    const maximumApiVersion: nat
    var translated: Translated
    var translatedSize: nat

    /** A translated buffer of its own is only ever made below version 14,
      * and the input is only aliased from version 14 on; the size is the
      * size of what the pointer holds. */
    predicate Valid()
      reads this
    {
      (translated == InputAlias ==>
         version >= MinimumUntranslatedVersion && bitcode.Some? &&
         translatedSize == |bitcode.value|) &&
      (translated.OwnedCopy? ==>
         version < MinimumUntranslatedVersion && translatedSize == |translated.bytes|) &&
      (translated == NoBuffer ==> translatedSize == 0)
    }

    constructor (bitcode: Option<seq<byte>>, version: nat, maximumApiVersion: nat)
      ensures this.bitcode == bitcode && this.version == version
      ensures this.maximumApiVersion == maximumApiVersion
      ensures translated == NoBuffer && translatedSize == 0 && Valid()
    {
      this.bitcode := bitcode;
      this.version := version;
      this.maximumApiVersion := maximumApiVersion;
      translated := NoBuffer;
      translatedSize := 0;
    }

    /** The bytes the translated-bitcode pointer makes available. */
    function Output(): (out: Option<seq<byte>>)
      reads this
      requires Valid()
      ensures translated == NoBuffer <==> out.None?
      ensures translated == InputAlias ==> out == bitcode
      ensures out.Some? ==> |out.value| == translatedSize
    {
      match translated
      case NoBuffer => None
      case InputAlias => bitcode
      case OwnedCopy(bytes) => Some(bytes)
    }

    /** `translate`: NULL or empty input and a refused version fail and
      * change nothing; from version 14 on the input is aliased with its
      * size; below it the result of the upgrade, when there is one,
      * becomes a buffer of the translator's own. */
    method Translate(upgrade: seq<byte> -> Option<seq<byte>>) returns (ok: bool)
      requires Valid()
      modifies this
      ensures Valid()
      ensures bitcode.None? || |bitcode.value| == 0 ==>
        !ok && translated == old(translated) && translatedSize == old(translatedSize)
      ensures bitcode.Some? && |bitcode.value| > 0 && !VersionAccepted(version, maximumApiVersion) ==>
        !ok && translated == old(translated) && translatedSize == old(translatedSize)
      ensures bitcode.Some? && |bitcode.value| > 0 && VersionAccepted(version, maximumApiVersion) &&
              version >= MinimumUntranslatedVersion ==>
        ok && translated == InputAlias && Output() == bitcode
      ensures bitcode.Some? && |bitcode.value| > 0 && VersionAccepted(version, maximumApiVersion) &&
              version < MinimumUntranslatedVersion ==>
        ok == upgrade(bitcode.value).Some? &&
        (ok ==> translated == OwnedCopy(upgrade(bitcode.value).value) &&
                Output() == upgrade(bitcode.value)) &&
        (!ok ==> translated == old(translated) && translatedSize == old(translatedSize))
    {
      if bitcode.None? || |bitcode.value| == 0 {
        return false;
      }
      if version != CurrentApiVersion &&
         (version < MinimumApiVersion || version > maximumApiVersion) {
        return false;
      }
      if version >= MinimumUntranslatedVersion {
        translated := InputAlias;
        translatedSize := |bitcode.value|;
        return true;
      }
      var upgraded := upgrade(bitcode.value);
      if upgraded.None? {
        return false;
      }
      translated := OwnedCopy(upgraded.value);
      translatedSize := |upgraded.value|;
      return true;
    }

    /** The destructor: the buffer handed to `delete[]` is the translated
      * one below version 14 and nothing otherwise, so the aliased input is
      * never freed; the pointer is cleared, the size is left as it was. */
    method Destroy() returns (freed: Translated)
      requires Valid()
      modifies this
      ensures freed != InputAlias
      ensures version < MinimumUntranslatedVersion ==> freed == old(translated)
      ensures version >= MinimumUntranslatedVersion ==> freed == NoBuffer
      ensures translated == NoBuffer && translatedSize == old(translatedSize)
    {
      freed := NoBuffer;
      if version < MinimumUntranslatedVersion {
        freed := translated;
      }
      translated := NoBuffer;
    }
  }

  /** Pass-through is the identity: a translator for version 14 or later
    * that succeeds hands back its input, and its destructor frees nothing. */
  method PassThrough(bitcode: seq<byte>, version: nat, maximumApiVersion: nat,
                     upgrade: seq<byte> -> Option<seq<byte>>)
    returns (ok: bool, out: Option<seq<byte>>, freed: Translated)
    requires |bitcode| > 0 && version >= MinimumUntranslatedVersion
    requires VersionAccepted(version, maximumApiVersion)
    ensures ok && out == Some(bitcode) && freed == NoBuffer
  {
    var t := new Translator(Some(bitcode), version, maximumApiVersion);
    ok := t.Translate(upgrade);
    out := t.Output();
    freed := t.Destroy();
  }
}
