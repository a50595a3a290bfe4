/**
 * The binary descriptor a plugin fills in (SharedLibraryClassApi) and the
 * host's check that it was built against the same contract (isValid).
 */
module Abi {
  import opened Common

  /**
   * The descriptor fields the host inspects. The four function-pointer slots
   * are foreign code; of them the model keeps only what the two name queries
   * write into the caller's buffer.
   */
  datatype ClassApi = ClassApi(
    startCheck: int32,
    structureSize: int32,
    systemVersion: int32,
    className: string,      // what getClassName writes into the buffer
    baseClassName: string,  // what getBaseClassName writes into the buffer
    endCheck: int32)

  /** The descriptor after memset(&api, 0, sizeof api). */
  const Zeroed := ClassApi(0, 0, 0, "", "", 0)

  /**
   * What the host expects: its leading and trailing sentinels, its system
   * version, and its own compiled byte size of the descriptor.
   */
  datatype Expected = Expected(startCheck: int32, endCheck: int32, systemVersion: int32, structureSize: int32)

  /**
   * The plugin's factory function: given the descriptor buffer (as it stands)
   * and the host's byte size of it, it returns a value and the filled buffer.
   */
  type Hook = (ClassApi, int32) -> (int32, ClassApi)

  /**
   * isValid: the factory function returned the leading sentinel, and the
   * descriptor's two sentinels, its byte size and its version all match the
   * host's. Checked field by field, failing at the first mismatch.
   */
  function Accepts(returnValue: int32, api: ClassApi, e: Expected): (ok: bool)
    ensures ok <==> && returnValue == e.startCheck
                    && api.startCheck == e.startCheck
                    && api.structureSize == e.structureSize
                    && api.systemVersion == e.systemVersion
                    && api.endCheck == e.endCheck
    ensures ok ==> returnValue == api.startCheck
  {
    if returnValue != e.startCheck then false
    else if api.startCheck != e.startCheck then false
    else if api.structureSize != e.structureSize then false
    else if api.systemVersion != e.systemVersion then false
    else if api.endCheck != e.endCheck then false
    else true
  }

  /**
   * Any single field of an accepted handshake changed to another value makes
   * the handshake fail: each of the five checks matters on its own.
   */
  lemma SingleMismatchRejected(returnValue: int32, api: ClassApi, e: Expected, v: int32)
    requires Accepts(returnValue, api, e)
    ensures v != returnValue ==> !Accepts(v, api, e)
    ensures v != api.startCheck ==> !Accepts(returnValue, api.(startCheck := v), e)
    ensures v != api.structureSize ==> !Accepts(returnValue, api.(structureSize := v), e)
    ensures v != api.systemVersion ==> !Accepts(returnValue, api.(systemVersion := v), e)
    ensures v != api.endCheck ==> !Accepts(returnValue, api.(endCheck := v), e)
  {
  }

  /**
   * A descriptor whose leading sentinel has been cleared is rejected whenever
   * the host's leading sentinel is non-zero, whatever its other fields hold.
   */
  lemma ClearedRejected(returnValue: int32, api: ClassApi, e: Expected)
    requires e.startCheck != 0
    ensures !Accepts(returnValue, api.(startCheck := 0), e)
  {
  }
}
