/**
 * Core-memory helpers of the unvalidated store (src/memory/core.rs): the
 * block injected into the system prompt and the update of state.md.
 */
module MemoryCore {
  import opened Wrappers
  import opened Text
  import opened Store
  import MemoryFiles

  /** The divider between the three core files in the prompt block. */
  const Divider: string := "\n\n---\n\n"

  /** `read_core(filename).unwrap_or_default()`: an unreadable file counts as "". */
  function CoreOrEmpty(m: MemoryFiles.MemoryManager, filename: string): (r: string)
    reads m
    ensures MemoryFiles.CoreKey(filename) in m.files ==> r == m.files[MemoryFiles.CoreKey(filename)]
    ensures MemoryFiles.CoreKey(filename) !in m.files ==> r == ""
  {
    match m.ReadCore(filename)
    case Ok(s) => s
    case Err(_) => ""
  }

  /** identity.md, user.md and state.md, in that order. */
  function CoreSegments(m: MemoryFiles.MemoryManager): (r: seq<string>)
    reads m
    ensures |r| == 3
    ensures r[0] == CoreOrEmpty(m, "identity.md") && r[1] == CoreOrEmpty(m, "user.md") && r[2] == CoreOrEmpty(m, "state.md")
  {
    [CoreOrEmpty(m, "identity.md"), CoreOrEmpty(m, "user.md"), CoreOrEmpty(m, "state.md")]
  }

  /** build_core_context: the three segments joined by the divider; it never fails. */
  function BuildCoreContext(m: MemoryFiles.MemoryManager): (r: string)
    reads m
    ensures r == Join(CoreSegments(m), Divider)
  {
    Join3(CoreOrEmpty(m, "identity.md"), CoreOrEmpty(m, "user.md"), CoreOrEmpty(m, "state.md"), Divider);
    CoreOrEmpty(m, "identity.md") + Divider + CoreOrEmpty(m, "user.md") + Divider + CoreOrEmpty(m, "state.md")
  }

  /** update_state: state.md alone changes, and it becomes the third segment of the block. */
  method UpdateState(m: MemoryFiles.MemoryManager, content: string)
    modifies m
    ensures m.files == old(m.files)[MemoryFiles.CoreKey("state.md") := content]
    ensures CoreSegments(m) == old(CoreSegments(m))[2 := content]
    ensures BuildCoreContext(m) == old(CoreOrEmpty(m, "identity.md")) + Divider + old(CoreOrEmpty(m, "user.md")) + Divider + content
  {
    m.WriteCore("state.md", content);
  }
}
