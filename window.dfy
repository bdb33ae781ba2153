/** src/window/win32/window.cc and window.h: the input state a `Window`
    keeps, and how `window_proc` updates it message by message. The Win32
    calls themselves (class registration, window creation, the message
    queue, DefWindowProc) are outside the model: their outcomes are inputs. */
module Window {
  import opened Results

  /** Win32 message identifiers handled by `window_proc`. */
  const WM_DESTROY: nat := 0x0002
  const WM_SIZE: nat := 0x0005
  const WM_KEYDOWN: nat := 0x0100
  const WM_KEYUP: nat := 0x0101
  const WM_MOUSEMOVE: nat := 0x0200
  const WM_LBUTTONDOWN: nat := 0x0201
  const WM_LBUTTONUP: nat := 0x0202

  /** Number of entries of `pressed_keys_`. */
  const KeyCount: nat := 256

  /** WORD: an unsigned 16-bit value. */
  type Word = x: int | 0 <= x < 0x1_0000

  /** LOWORD: the low 16 bits of the two's-complement LPARAM. Euclidean `%`
      yields exactly those bits for a negative value too. */
  function LoWord(lParam: int): Word
  {
    lParam % 0x1_0000
  }

  /** HIWORD: bits 16 to 31 of the two's-complement LPARAM (an arithmetic
      shift right by 16, then the low 16 bits). */
  function HiWord(lParam: int): Word
  {
    (lParam / 0x1_0000) % 0x1_0000
  }

  /** `(int)(short)w`: a WORD read as a signed 16-bit value. */
  function SignedWord(w: Word): int
  {
    if w < 0x8000 then w else w - 0x1_0000
  }

  /** `static_cast<uint8_t>(w_param)`. */
  function KeyIndex(wParam: nat): nat
  {
    wParam % KeyCount
  }

  /** One message as the window procedure receives it. */
  datatype Message = Message(msg: nat, wParam: nat, lParam: int)

  /** The window fields `window_proc` reads and writes, as one value. */
  datatype WindowState = WindowState(
    open: bool,
    width: Word,
    height: Word,
    mouseX: int,
    mouseY: int,
    leftClicking: bool,
    pressedKeys: seq<bool>)

  predicate WellFormed(s: WindowState)
  {
    |s.pressedKeys| == KeyCount
  }

  /** The messages `window_proc` handles itself. */
  predicate Handles(msg: nat)
  {
    msg == WM_DESTROY || msg == WM_SIZE || msg == WM_MOUSEMOVE || msg == WM_LBUTTONDOWN
    || msg == WM_LBUTTONUP || msg == WM_KEYDOWN || msg == WM_KEYUP
  }

  /** What `window_proc` does to the window's state on one message. */
  function Transition(s: WindowState, m: Message): (t: WindowState)
    requires WellFormed(s)
    ensures WellFormed(t)
  {
    if m.msg == WM_DESTROY then s.(open := false)
    else if m.msg == WM_SIZE then s.(width := LoWord(m.lParam), height := HiWord(m.lParam))
    else if m.msg == WM_MOUSEMOVE then
      s.(mouseX := SignedWord(LoWord(m.lParam)), mouseY := SignedWord(HiWord(m.lParam)))
    else if m.msg == WM_LBUTTONDOWN then s.(leftClicking := true)
    else if m.msg == WM_LBUTTONUP then s.(leftClicking := false)
    else if m.msg == WM_KEYDOWN then s.(pressedKeys := s.pressedKeys[KeyIndex(m.wParam) := true])
    else if m.msg == WM_KEYUP then s.(pressedKeys := s.pressedKeys[KeyIndex(m.wParam) := false])
    else s
  }

  /** The state after a sequence of messages, each handled in turn. */
  function Run(s: WindowState, msgs: seq<Message>): (t: WindowState)
    requires WellFormed(s)
    ensures WellFormed(t)
    decreases |msgs|
  {
    if msgs == [] then s else Run(Transition(s, msgs[0]), msgs[1..])
  }

  /** The low 32 bits of `lParam` hold `high` above `low`. MAKELPARAM
      zero-extends the packed DWORD, so its value `high * 0x1_0000 + low`
      is one such LPARAM; a sender that sign-extends it gives another. The
      bits above 31 do not matter to LOWORD and HIWORD. */
  predicate Packs(lParam: int, low: Word, high: Word)
  {
    lParam % 0x1_0000_0000 == high * 0x1_0000 + low
  }

  /** LOWORD and HIWORD read back the two words packed into an LPARAM,
      whatever its upper bits. */
  lemma PackedWords(lParam: int, low: Word, high: Word)
    requires Packs(lParam, low, high)
    ensures LoWord(lParam) == low && HiWord(lParam) == high
  {
    var q := lParam / 0x1_0000_0000;
    assert lParam == (q * 0x1_0000 + high) * 0x1_0000 + low;
    assert lParam / 0x1_0000 == q * 0x1_0000 + high;
  }

  /** WM_SIZE reads back the width and height packed into LPARAM, and
      changes nothing else. */
  lemma SizeRoundTrip(s: WindowState, wParam: nat, lParam: int, width: Word, height: Word)
    requires WellFormed(s)
    requires Packs(lParam, width, height)
    ensures Transition(s, Message(WM_SIZE, wParam, lParam)) == s.(width := width, height := height)
  {
    PackedWords(lParam, width, height);
  }

  /** WM_MOUSEMOVE reads back the signed 16-bit coordinates packed into
      LPARAM (as GET_X_LPARAM and GET_Y_LPARAM do), and changes nothing
      else. */
  lemma MouseMoveRoundTrip(s: WindowState, wParam: nat, lParam: int, x: int, y: int)
    requires WellFormed(s)
    requires -0x8000 <= x < 0x8000 && -0x8000 <= y < 0x8000
    requires Packs(lParam, x % 0x1_0000, y % 0x1_0000)
    ensures Transition(s, Message(WM_MOUSEMOVE, wParam, lParam)) == s.(mouseX := x, mouseY := y)
  {
    PackedWords(lParam, x % 0x1_0000, y % 0x1_0000);
  }

  /** No message reopens a window: once WM_DESTROY has been handled, the
      window stays closed whatever follows. */
  lemma {:induction false} ClosedStaysClosed(s: WindowState, msgs: seq<Message>)
    requires WellFormed(s)
    requires !s.open
    ensures !Run(s, msgs).open
    decreases |msgs|
  {
    if msgs != [] {
      ClosedStaysClosed(Transition(s, msgs[0]), msgs[1..]);
    }
  }

  /** After WM_DESTROY the window is closed; the other fields are kept. */
  lemma DestroyCloses(s: WindowState, m: Message)
    requires WellFormed(s)
    requires m.msg == WM_DESTROY
    ensures Transition(s, m) == s.(open := false)
  {
  }

  /** A message addressed to key `k` (after the uint8_t cast), if any. */
  predicate TouchesKey(m: Message, k: nat)
  {
    (m.msg == WM_KEYDOWN || m.msg == WM_KEYUP) && KeyIndex(m.wParam) == k
  }

  /** Key state is per key: a key's entry keeps its value through any run
      of messages none of which is a key-down or key-up for that key. */
  lemma {:induction false} KeyUntouchedKeepsState(s: WindowState, msgs: seq<Message>, k: nat)
    requires WellFormed(s) && k < KeyCount
    requires forall i :: 0 <= i < |msgs| ==> !TouchesKey(msgs[i], k)
    ensures Run(s, msgs).pressedKeys[k] == s.pressedKeys[k]
    decreases |msgs|
  {
    if msgs != [] {
      assert !TouchesKey(msgs[0], k);
      KeyUntouchedKeepsState(Transition(s, msgs[0]), msgs[1..], k);
    }
  }

  /** A key-down (key-up) sets exactly its key's entry to down (up). */
  lemma KeyMessageSetsOneKey(s: WindowState, m: Message, k: nat)
    requires WellFormed(s) && k < KeyCount
    requires m.msg == WM_KEYDOWN || m.msg == WM_KEYUP
    ensures Transition(s, m).pressedKeys[k] == if k == KeyIndex(m.wParam) then m.msg == WM_KEYDOWN else s.pressedKeys[k]
    ensures Transition(s, m).(pressedKeys := s.pressedKeys) == s
  {
  }

  /** A message `window_proc` does not handle leaves the state as it was. */
  lemma UnhandledKeepsState(s: WindowState, m: Message)
    requires WellFormed(s)
    requires !Handles(m.msg)
    ensures Transition(s, m) == s
  {
  }

  /** The value `window_proc` returns: 0 for a handled message, whatever
      DefWindowProc returns for any other, or the exception thrown when the
      window has no `Window` attached (GetWindowLongPtr returned 0). */
  datatype ProcResult = Returned(value: int) | DefaultProc | NoWindowAttached

  datatype WindowError = RegisterClassFailed | CreateWindowFailed

  /** `Window`: the input state that `window_proc` maintains. */
  class Window {
    var open: bool
    var width: Word
    var height: Word
    var mouseX: int
    var mouseY: int
    var leftClicking: bool
    const pressedKeys: array<bool>

    ghost predicate Valid()
      reads this
    {
      pressedKeys.Length == KeyCount
    }

    ghost function State(): WindowState
      reads this, pressedKeys
    {
      WindowState(open, width, height, mouseX, mouseY, leftClicking, pressedKeys[..])
    }

    /** The member initializers of `Window::Window`: closed, mouse at the
        origin, not clicking, all keys up. `width_` and `height_` are not
        initialised there, so nothing is promised about them. */
    constructor ()
      ensures Valid() && fresh(pressedKeys)
      ensures !open && mouseX == 0 && mouseY == 0 && !leftClicking
      ensures forall k :: 0 <= k < KeyCount ==> !pressedKeys[k]
    {
      open, mouseX, mouseY, leftClicking := false, 0, 0, false;
      pressedKeys := new bool[KeyCount](_ => false);
    }

    /** `width()`: the stored WORD, widened to int. */
    function Width(): (w: int)
      reads this
      ensures w == State().width && 0 <= w < 0x1_0000
    {
      width
    }

    /** `height()`: the stored WORD, widened to int. */
    function Height(): (h: int)
      reads this
      ensures h == State().height && 0 <= h < 0x1_0000
    {
      height
    }

    /** `mouse_x()`. */
    function MouseX(): (x: int)
      reads this
      ensures x == State().mouseX
    {
      mouseX
    }

    /** `mouse_y()`. */
    function MouseY(): (y: int)
      reads this
      ensures y == State().mouseY
    {
      mouseY
    }

    /** `left_clicking()`. */
    function LeftClicking(): (down: bool)
      reads this
      ensures down == State().leftClicking
    {
      leftClicking
    }

    /** `is_key_down(key_code)`: the key code is a uint8_t, so it always
        indexes inside the 256-entry table. */
    function IsKeyDown(keyCode: bv8): (down: bool)
      reads this, pressedKeys
      requires Valid()
      ensures down == State().pressedKeys[keyCode as int]
    {
      pressedKeys[keyCode as int]
    }

    /** `poll()`: dispatch the pending message for this window, if there is
        one, to `window_proc`; either way return `open_` as it then is. */
    method Poll(pending: Option<Message>) returns (stillOpen: bool)
      requires Valid()
      modifies this, pressedKeys
      ensures Valid()
      ensures stillOpen == open
      ensures pending.None? ==> State() == old(State())
      ensures pending.Some? ==> State() == Transition(old(State()), pending.value)
    {
      if pending.Some? {
        var _ := WindowProc(this, pending.value);
      }
      stillOpen := open;
    }
  }

  /** `vulkan_extensions()`: the two instance extensions a Win32 surface
      needs, in this order. */
  function VulkanExtensions(): (names: seq<string>)
    ensures |names| == 2 && names[0] == "VK_KHR_surface" && names[1] == "VK_KHR_win32_surface"
  {
    ["VK_KHR_surface", "VK_KHR_win32_surface"]
  }

  /** The rest of `Window::Window(title)`: register the window class, create
      the window (each failure throws), attach the `Window`, show it, and
      only then mark it open. */
  method NewWindow(title: string, registerSucceeds: bool, createSucceeds: bool)
    returns (r: Result<Window, WindowError>)
    ensures !registerSucceeds ==> r == Err(RegisterClassFailed)
    ensures registerSucceeds && !createSucceeds ==> r == Err(CreateWindowFailed)
    ensures registerSucceeds && createSucceeds ==> r.Ok?
    ensures r.Ok? ==>
      && fresh(r.value) && fresh(r.value.pressedKeys) && r.value.Valid()
      && r.value.open && r.value.mouseX == 0 && r.value.mouseY == 0 && !r.value.leftClicking
      && forall k :: 0 <= k < KeyCount ==> !r.value.pressedKeys[k]
  {
    var w := new Window();
    if !registerSucceeds {
      return Err(RegisterClassFailed);
    }
    if !createSucceeds {
      return Err(CreateWindowFailed);
    }
    w.open := true;
    r := Ok(w);
  }

  /** `window_proc`: for a handled message, update the attached window as
      Transition says and return 0; any other message goes to DefWindowProc
      and touches nothing. A handled message for a window with nothing
      attached throws. */
  method WindowProc(target: Window?, m: Message) returns (r: ProcResult)
    requires target != null ==> target.Valid()
    modifies if target != null then {target, target.pressedKeys} else {}
    ensures !Handles(m.msg) ==> r == DefaultProc
    ensures !Handles(m.msg) && target != null ==> unchanged(target, target.pressedKeys)
    ensures Handles(m.msg) && target == null ==> r == NoWindowAttached
    ensures Handles(m.msg) && target != null ==>
      r == Returned(0) && target.State() == Transition(old(target.State()), m)
  {
    if !Handles(m.msg) {
      return DefaultProc;
    }
    if target == null {
      return NoWindowAttached;
    }
    if m.msg == WM_DESTROY {
      target.open := false;
    } else if m.msg == WM_SIZE {
      var height := HiWord(m.lParam);
      var width := LoWord(m.lParam);
      target.width := width;
      target.height := height;
    } else if m.msg == WM_MOUSEMOVE {
      var x := SignedWord(LoWord(m.lParam));
      var y := SignedWord(HiWord(m.lParam));
      target.mouseX := x;
      target.mouseY := y;
    } else if m.msg == WM_LBUTTONDOWN {
      target.leftClicking := true;
    } else if m.msg == WM_LBUTTONUP {
      target.leftClicking := false;
    } else if m.msg == WM_KEYDOWN {
      target.pressedKeys[KeyIndex(m.wParam)] := true;
    } else {
      target.pressedKeys[KeyIndex(m.wParam)] := false;
    }
    r := Returned(0);
  }
}
