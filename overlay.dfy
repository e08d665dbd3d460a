/**
 * The ImGui back end of the engine: `render` flattens the frame's draw
 * lists into one vertex and one index buffer and replays every draw
 * command against the render context with running vertex and index
 * offsets, bracketed by a save and a restore of the context's state;
 * `newFrame` creates the back end's device objects on first use and
 * copies the platform's keyboard and mouse state into ImGui's input record.
 *
 * The render context is observed through the calls made to it, in order.
 */
module Overlay {
  import opened Common
  import opened Platform

  /** An `ImDrawVert`: position, texture coordinate and colour, carried as opaque values. */
  datatype DrawVert = DrawVert(posX: int, posY: int, u: int, v: int, col: int)

  /** `sizeof(ImDrawIdx)`: ImGui's default 16-bit index type. */
  const INDEX_SIZE: nat := 2

  /** An `ImDrawCmd`'s clip rectangle (x, y, z, w), carried as opaque values. */
  datatype ClipRect = ClipRect(x: int, y: int, z: int, w: int)

  /**
   * An `ImDrawCmd`: how many indices it draws, whether it carries a user
   * callback, the texture it samples (`None` for a null `TextureId`) and
   * its clip rectangle.
   */
  datatype DrawCmd = DrawCmd(elemCount: nat, hasCallback: bool, texture: Option<nat>, clip: ClipRect)

  /** An `ImDrawList`: its vertex buffer, index buffer and command buffer. */
  datatype DrawList = DrawList(vertices: seq<DrawVert>, indices: seq<nat>, commands: seq<DrawCmd>)

  datatype IndexFormat = U16 | U32
  datatype BufferKind = VertexData | IndexData

  /** A call made on the render context. */
  datatype ContextCall =
    | CreateVertexBuffer(vertices: seq<DrawVert>)
    | CreateIndexBuffer(indices: seq<nat>)
    | SaveRenderState
    | BindShader
    | UpdateProjection(displayWidth: int, displayHeight: int)
    | BindShaderConstant
    | SetViewport(width: int, height: int)
    | BindShaderLayout
    | BindVertexBuffer
    | BindIndexBuffer(format: IndexFormat)
    | BindSampler
    | BindBlendState
    | BindDepthStencilState
    | BindRasterState
    | UserCallback(list: nat, command: nat)
    | BindTexture(texture: nat)
    | SetClipRect(clip: ClipRect)
    | DrawIndexed(count: nat, vertexOffset: nat, indexOffset: nat)
    | DestroyBuffer(kind: BufferKind)
    | ReloadRenderState
    | DestroyRenderState

  // ---------------------------------------------------------------------
  // Reference definitions
  // ---------------------------------------------------------------------

  /** The number of vertices over all lists. */
  function VertexTotal(lists: seq<DrawList>): nat
  {
    if lists == [] then 0 else VertexTotal(lists[..|lists| - 1]) + |lists[|lists| - 1].vertices|
  }

  /** The number of indices over all lists. */
  function IndexTotal(lists: seq<DrawList>): nat
  {
    if lists == [] then 0 else IndexTotal(lists[..|lists| - 1]) + |lists[|lists| - 1].indices|
  }

  /** Every list's vertices, one list after another. */
  function ConcatVertices(lists: seq<DrawList>): seq<DrawVert>
  {
    if lists == [] then [] else ConcatVertices(lists[..|lists| - 1]) + lists[|lists| - 1].vertices
  }

  /** Every list's indices, one list after another. */
  function ConcatIndices(lists: seq<DrawList>): seq<nat>
  {
    if lists == [] then [] else ConcatIndices(lists[..|lists| - 1]) + lists[|lists| - 1].indices
  }

  /** The `ElemCount`s of `cmds` added up, callbacks included. */
  function ElemTotal(cmds: seq<DrawCmd>): nat
  {
    if cmds == [] then 0 else ElemTotal(cmds[..|cmds| - 1]) + cmds[|cmds| - 1].elemCount
  }

  /** The `ElemCount`s of every command of every list added up. */
  function ListsElemTotal(lists: seq<DrawList>): nat
  {
    if lists == [] then 0 else ListsElemTotal(lists[..|lists| - 1]) + ElemTotal(lists[|lists| - 1].commands)
  }

  /**
   * The calls for command `c` of list `n` drawn at the given offsets: its
   * callback alone, or a texture bind when it names a texture, its clip
   * rectangle and an indexed draw of `elemCount` indices.
   */
  function CommandCalls(n: nat, c: nat, cmd: DrawCmd, vertexOffset: nat, indexOffset: nat): seq<ContextCall>
  {
    if cmd.hasCallback then [UserCallback(n, c)]
    else
      (if cmd.texture.Some? then [BindTexture(cmd.texture.value)] else []) +
      [SetClipRect(cmd.clip), DrawIndexed(cmd.elemCount, vertexOffset, indexOffset)]
  }

  /** The calls for the commands `cmds` of list `n`, the index offset starting at `indexOffset`. */
  function ListCalls(n: nat, cmds: seq<DrawCmd>, vertexOffset: nat, indexOffset: nat): seq<ContextCall>
  {
    if cmds == [] then []
    else
      var init := cmds[..|cmds| - 1];
      ListCalls(n, init, vertexOffset, indexOffset) +
      CommandCalls(n, |init|, cmds[|cmds| - 1], vertexOffset, indexOffset + ElemTotal(init))
  }

  /** The calls for every command of every list, each list drawn at the offsets where its data was uploaded. */
  function DrawCalls(lists: seq<DrawList>): seq<ContextCall>
  {
    if lists == [] then []
    else
      var init := lists[..|lists| - 1];
      DrawCalls(init) + ListCalls(|init|, lists[|lists| - 1].commands, VertexTotal(init), ListsElemTotal(init))
  }

  /** The index format matching `INDEX_SIZE`. */
  function IndexBufferFormat(): IndexFormat
  {
    if INDEX_SIZE == 2 then U16 else U32
  }

  /** Buffer upload, state save and pipeline binds, in the order `render` makes them. */
  function SetupCalls(lists: seq<DrawList>, displayWidth: int, displayHeight: int): seq<ContextCall>
  {
    [CreateVertexBuffer(ConcatVertices(lists)), CreateIndexBuffer(ConcatIndices(lists)),
     SaveRenderState,
     BindShader, UpdateProjection(displayWidth, displayHeight), BindShaderConstant,
     SetViewport(displayWidth, displayHeight),
     BindShaderLayout, BindVertexBuffer, BindIndexBuffer(IndexBufferFormat()),
     BindSampler, BindBlendState, BindDepthStencilState, BindRasterState]
  }

  /** Buffer release and state restore at the end of `render`. */
  function TeardownCalls(): seq<ContextCall>
  {
    [DestroyBuffer(VertexData), DestroyBuffer(IndexData), ReloadRenderState, DestroyRenderState]
  }

  /** Every call `render` makes for `lists` on a display of the given size. */
  function RenderCalls(lists: seq<DrawList>, displayWidth: int, displayHeight: int): seq<ContextCall>
  {
    SetupCalls(lists, displayWidth, displayHeight) + DrawCalls(lists) + TeardownCalls()
  }

  // ---------------------------------------------------------------------
  // render
  // ---------------------------------------------------------------------

  /** `memcpy` of `src` into `dst` at `at`: the first `at` entries stay as they were. */
  method CopyInto<T>(dst: array<T>, at: nat, src: seq<T>)
    requires at + |src| <= dst.Length
    modifies dst
    ensures dst[..at + |src|] == old(dst[..at]) + src
  {
    for k := 0 to |src|
      invariant dst[..at] == old(dst[..at])
      invariant dst[at..at + k] == src[..k]
    {
      dst[at + k] := src[k];
      assert dst[at..at + k + 1] == dst[at..at + k] + [dst[at + k]];
    }
    assert dst[..at + |src|] == dst[..at] + dst[at..at + |src|];
  }

  /** The counting loop of `render`: the vertex and index totals over all lists. */
  method CountTotals(lists: seq<DrawList>) returns (vertexCount: nat, indexCount: nat)
    ensures vertexCount == VertexTotal(lists) && indexCount == IndexTotal(lists)
  {
    vertexCount, indexCount := 0, 0;
    for n := 0 to |lists|
      invariant vertexCount == VertexTotal(lists[..n]) && indexCount == IndexTotal(lists[..n])
    {
      assert lists[..n + 1][..n] == lists[..n];
      vertexCount := vertexCount + |lists[n].vertices|;
      indexCount := indexCount + |lists[n].indices|;
    }
    assert lists[..|lists|] == lists;
  }

  /**
   * The copy loop of `render`: fresh arrays of the totals' sizes, filled by
   * copying every list's vertices and indices after the previous list's.
   */
  method Flatten(lists: seq<DrawList>, vertexCount: nat, indexCount: nat) returns (vertices: array<DrawVert>, indices: array<nat>)
    requires vertexCount == VertexTotal(lists) && indexCount == IndexTotal(lists)
    ensures fresh(vertices) && fresh(indices)
    ensures vertices[..] == ConcatVertices(lists) && indices[..] == ConcatIndices(lists)
  {
    vertices := new DrawVert[vertexCount];
    indices := new nat[indexCount];
    var vtxDst, idxDst := 0, 0;
    for n := 0 to |lists|
      invariant vtxDst == VertexTotal(lists[..n]) && idxDst == IndexTotal(lists[..n])
      invariant vtxDst <= vertices.Length && idxDst <= indices.Length
      invariant vertices[..vtxDst] == ConcatVertices(lists[..n])
      invariant indices[..idxDst] == ConcatIndices(lists[..n])
    {
      assert lists[..n + 1][..n] == lists[..n];
      TotalsGrow(lists, n + 1);
      CopyInto(vertices, vtxDst, lists[n].vertices);
      CopyInto(indices, idxDst, lists[n].indices);
      vtxDst := vtxDst + |lists[n].vertices|;
      idxDst := idxDst + |lists[n].indices|;
    }
    assert lists[..|lists|] == lists;
    assert vertices[..] == vertices[..vtxDst] && indices[..] == indices[..idxDst];
  }

  /**
   * The inner draw loop of `render` over the commands of list `n`: the
   * calls it makes, and the index offset it leaves behind, advanced by
   * every command's `ElemCount`.
   */
  method DrawCommands(n: nat, cmds: seq<DrawCmd>, vtxOffset: nat, idxStart: nat) returns (calls: seq<ContextCall>, idxOffset: nat)
    ensures calls == ListCalls(n, cmds, vtxOffset, idxStart)
    ensures idxOffset == idxStart + ElemTotal(cmds)
  {
    calls, idxOffset := [], idxStart;
    for c := 0 to |cmds|
      invariant idxOffset == idxStart + ElemTotal(cmds[..c])
      invariant calls == ListCalls(n, cmds[..c], vtxOffset, idxStart)
    {
      assert cmds[..c + 1][..c] == cmds[..c];
      var cmd := cmds[c];
      if cmd.hasCallback {
        calls := calls + [UserCallback(n, c)];
      } else {
        if cmd.texture.Some? {
          calls := calls + [BindTexture(cmd.texture.value)];
        }
        calls := calls + [SetClipRect(cmd.clip)];
        calls := calls + [DrawIndexed(cmd.elemCount, vtxOffset, idxOffset)];
      }
      idxOffset := idxOffset + cmd.elemCount;
    }
    assert cmds[..|cmds|] == cmds;
  }

  /** The outer draw loop of `render`: every list in turn, the vertex offset advanced by each list's vertex count. */
  method DrawLists(lists: seq<DrawList>) returns (calls: seq<ContextCall>)
    ensures calls == DrawCalls(lists)
  {
    calls := [];
    var vtxOffset, idxOffset := 0, 0;
    for n := 0 to |lists|
      invariant vtxOffset == VertexTotal(lists[..n]) && idxOffset == ListsElemTotal(lists[..n])
      invariant calls == DrawCalls(lists[..n])
    {
      assert lists[..n + 1][..n] == lists[..n];
      var listCalls;
      listCalls, idxOffset := DrawCommands(n, lists[n].commands, vtxOffset, idxOffset);
      calls := calls + listCalls;
      vtxOffset := vtxOffset + |lists[n].vertices|;
    }
    assert lists[..|lists|] == lists;
  }

  /**
   * `ImGuiImpl::render` for the frame's draw lists on a display of the
   * given size: the calls it makes on the render context, in order.
   */
  method Render(lists: seq<DrawList>, displayWidth: int, displayHeight: int) returns (calls: seq<ContextCall>)
    ensures calls == RenderCalls(lists, displayWidth, displayHeight)
  {
    var vertexCount, indexCount := CountTotals(lists);
    var vertices, indices := Flatten(lists, vertexCount, indexCount);
    calls := [CreateVertexBuffer(vertices[..]), CreateIndexBuffer(indices[..]), SaveRenderState];
    calls := calls + [BindShader, UpdateProjection(displayWidth, displayHeight), BindShaderConstant];
    calls := calls + [SetViewport(displayWidth, displayHeight)];
    calls := calls + [BindShaderLayout, BindVertexBuffer, BindIndexBuffer(IndexBufferFormat())];
    calls := calls + [BindSampler, BindBlendState, BindDepthStencilState, BindRasterState];
    assert calls == SetupCalls(lists, displayWidth, displayHeight);
    var draws := DrawLists(lists);
    calls := calls + draws;
    calls := calls + [DestroyBuffer(VertexData), DestroyBuffer(IndexData)];
    calls := calls + [ReloadRenderState, DestroyRenderState];
  }

  // ---------------------------------------------------------------------
  // Properties of render
  // ---------------------------------------------------------------------

  /** The uploaded buffers are as long as the totals `render` allocates. */
  lemma {:induction false} ConcatLengths(lists: seq<DrawList>)
    ensures |ConcatVertices(lists)| == VertexTotal(lists)
    ensures |ConcatIndices(lists)| == IndexTotal(lists)
  {
    if lists != [] {
      ConcatLengths(lists[..|lists| - 1]);
    }
  }

  /** The totals over the first `m` lists never exceed the totals over all of them. */
  lemma {:induction false} TotalsGrow(lists: seq<DrawList>, m: nat)
    requires m <= |lists|
    ensures VertexTotal(lists[..m]) <= VertexTotal(lists)
    ensures IndexTotal(lists[..m]) <= IndexTotal(lists)
    decreases |lists|
  {
    if m < |lists| {
      var init := lists[..|lists| - 1];
      assert init[..m] == lists[..m];
      TotalsGrow(init, m);
    } else {
      assert lists[..m] == lists;
    }
  }

  /** Drawing the first `m` lists issues a prefix of the calls for all of them. */
  lemma {:induction false} DrawCallsPrefix(lists: seq<DrawList>, m: nat)
    requires m <= |lists|
    ensures DrawCalls(lists[..m]) <= DrawCalls(lists)
    decreases |lists|
  {
    if m < |lists| {
      var init := lists[..|lists| - 1];
      assert init[..m] == lists[..m];
      DrawCallsPrefix(init, m);
    } else {
      assert lists[..m] == lists;
    }
  }

  /** Drawing the first `m` commands of a list issues a prefix of the calls for the whole list. */
  lemma {:induction false} ListCallsPrefix(n: nat, cmds: seq<DrawCmd>, vertexOffset: nat, indexOffset: nat, m: nat)
    requires m <= |cmds|
    ensures ListCalls(n, cmds[..m], vertexOffset, indexOffset) <= ListCalls(n, cmds, vertexOffset, indexOffset)
    decreases |cmds|
  {
    if m < |cmds| {
      var init := cmds[..|cmds| - 1];
      assert init[..m] == cmds[..m];
      ListCallsPrefix(n, init, vertexOffset, indexOffset, m);
    } else {
      assert cmds[..m] == cmds;
    }
  }

  /** The uploaded vertices of the first `m` lists are a prefix of all uploaded vertices. */
  lemma {:induction false} ConcatPrefix(lists: seq<DrawList>, m: nat)
    requires m <= |lists|
    ensures ConcatVertices(lists[..m]) <= ConcatVertices(lists)
    ensures ConcatIndices(lists[..m]) <= ConcatIndices(lists)
    decreases |lists|
  {
    if m < |lists| {
      var init := lists[..|lists| - 1];
      assert init[..m] == lists[..m];
      ConcatPrefix(init, m);
    } else {
      assert lists[..m] == lists;
    }
  }

  /**
   * List `n`'s data sits in the uploaded buffers right after the data of
   * the lists before it: the vertex offset its draws use addresses its own
   * vertices, and likewise for indices.
   */
  lemma UploadedAtOffsets(lists: seq<DrawList>, n: nat)
    requires n < |lists|
    ensures forall k :: 0 <= k < |lists[n].vertices| ==>
      VertexTotal(lists[..n]) + k < |ConcatVertices(lists)| &&
      ConcatVertices(lists)[VertexTotal(lists[..n]) + k] == lists[n].vertices[k]
    ensures forall k :: 0 <= k < |lists[n].indices| ==>
      IndexTotal(lists[..n]) + k < |ConcatIndices(lists)| &&
      ConcatIndices(lists)[IndexTotal(lists[..n]) + k] == lists[n].indices[k]
  {
    var upTo := lists[..n + 1];
    assert upTo[..n] == lists[..n];
    ConcatPrefix(lists, n + 1);
    ConcatLengths(lists[..n]);
    assert ConcatVertices(upTo) == ConcatVertices(lists[..n]) + lists[n].vertices;
    assert ConcatIndices(upTo) == ConcatIndices(lists[..n]) + lists[n].indices;
  }

  /** The index offset `render` has reached when it comes to command `c` of list `n`. */
  function IndexOffsetAt(lists: seq<DrawList>, n: nat, c: nat): nat
    requires n < |lists| && c <= |lists[n].commands|
  {
    ListsElemTotal(lists[..n]) + ElemTotal(lists[n].commands[..c])
  }

  /** The calls `render` has made in its draw loop when it comes to command `c` of list `n`. */
  function CallsBefore(lists: seq<DrawList>, n: nat, c: nat): seq<ContextCall>
    requires n < |lists| && c <= |lists[n].commands|
  {
    DrawCalls(lists[..n]) + ListCalls(n, lists[n].commands[..c], VertexTotal(lists[..n]), ListsElemTotal(lists[..n]))
  }

  /** The calls for command `c` of list `n`, at the vertex offset of list `n` and the index offset reached there. */
  function CommandAt(lists: seq<DrawList>, n: nat, c: nat): seq<ContextCall>
    requires n < |lists| && c < |lists[n].commands|
  {
    CommandCalls(n, c, lists[n].commands[c], VertexTotal(lists[..n]), IndexOffsetAt(lists, n, c))
  }

  /** One more command: its calls follow those of every command before it. */
  lemma CallsBeforeStep(lists: seq<DrawList>, n: nat, c: nat)
    requires n < |lists| && c < |lists[n].commands|
    ensures CallsBefore(lists, n, c + 1) == CallsBefore(lists, n, c) + CommandAt(lists, n, c)
  {
    var cmds := lists[n].commands;
    assert cmds[..c + 1][..c] == cmds[..c];
    var listCalls := ListCalls(n, cmds[..c], VertexTotal(lists[..n]), ListsElemTotal(lists[..n]));
    assert DrawCalls(lists[..n]) + listCalls + CommandAt(lists, n, c) == DrawCalls(lists[..n]) + (listCalls + CommandAt(lists, n, c));
  }

  /** A list's draw loop starts after the calls for the lists before it and ends with all of its own. */
  lemma CallsBeforeList(lists: seq<DrawList>, n: nat)
    requires n < |lists|
    ensures CallsBefore(lists, n, 0) == DrawCalls(lists[..n])
    ensures CallsBefore(lists, n, |lists[n].commands|) == DrawCalls(lists[..n + 1])
  {
    assert lists[..n + 1][..n] == lists[..n];
    assert lists[n].commands[..|lists[n].commands|] == lists[n].commands;
  }

  /** The calls made before command `c` of list `n` are a prefix of all draw-loop calls. */
  lemma CallsBeforeInOrder(lists: seq<DrawList>, n: nat, c: nat)
    requires n < |lists| && c <= |lists[n].commands|
    ensures CallsBefore(lists, n, c) <= DrawCalls(lists)
  {
    var cmds := lists[n].commands;
    var vtx := VertexTotal(lists[..n]);
    var idx := ListsElemTotal(lists[..n]);
    ListCallsPrefix(n, cmds, vtx, idx, c);
    CallsBeforeList(lists, n);
    assert cmds[..|cmds|] == cmds;
    DrawCallsPrefix(lists, n + 1);
    PrefixChain(DrawCalls(lists[..n]), ListCalls(n, cmds[..c], vtx, idx), ListCalls(n, cmds, vtx, idx),
                DrawCalls(lists[..n + 1]), DrawCalls(lists));
  }

  /**
   * The calls for command `c` of list `n` come right after the calls for
   * every earlier list and every earlier command of list `n`, in the order
   * `render` issues them: at vertex offset = the vertices of lists 0..n-1,
   * and index offset = the `ElemCount`s of every earlier command of every
   * list, callbacks included.
   */
  lemma CommandCallsInOrder(lists: seq<DrawList>, n: nat, c: nat)
    requires n < |lists| && c < |lists[n].commands|
    ensures CallsBefore(lists, n, c) + CommandAt(lists, n, c) <= DrawCalls(lists)
  {
    CallsBeforeInOrder(lists, n, c + 1);
    CallsBeforeStep(lists, n, c);
  }

  /** `earlier + first` is a prefix of `all` when `first` starts `whole` and `earlier + whole` starts `all`. */
  lemma PrefixChain<T>(earlier: seq<T>, first: seq<T>, whole: seq<T>, upTo: seq<T>, all: seq<T>)
    requires first <= whole
    requires upTo == earlier + whole && upTo <= all
    ensures earlier + first <= all
  {
    PrefixAfter(earlier, first, whole);
    PrefixTransitive(earlier + first, upTo, all);
  }

  lemma PrefixAfter<T>(a: seq<T>, b: seq<T>, c: seq<T>)
    requires b <= c
    ensures a + b <= a + c
  {
    assert (a + c)[..|a + b|] == a + c[..|b|];
  }

  lemma PrefixTransitive<T>(a: seq<T>, b: seq<T>, c: seq<T>)
    requires a <= b && b <= c
    ensures a <= c
  {
    assert b[..|a|] == c[..|a|];
  }

  /**
   * What one command issues: a callback command calls its callback and
   * nothing else; any other command binds its texture exactly when it has
   * one, then sets its clip rectangle, then draws `elemCount` indices.
   */
  lemma CommandDispatch(n: nat, c: nat, cmd: DrawCmd, vertexOffset: nat, indexOffset: nat)
    ensures var calls := CommandCalls(n, c, cmd, vertexOffset, indexOffset);
      if cmd.hasCallback then calls == [UserCallback(n, c)]
      else
        |calls| >= 2 &&
        calls[|calls| - 1] == DrawIndexed(cmd.elemCount, vertexOffset, indexOffset) &&
        calls[|calls| - 2] == SetClipRect(cmd.clip) &&
        (exists t :: BindTexture(t) in calls) == cmd.texture.Some?
  {
    var calls := CommandCalls(n, c, cmd, vertexOffset, indexOffset);
    if !cmd.hasCallback && cmd.texture.Some? {
      assert calls[0] == BindTexture(cmd.texture.value);
    }
  }

  /** A call the draw loop can make. */
  predicate IsDrawLoopCall(call: ContextCall)
  {
    call.UserCallback? || call.BindTexture? || call.SetClipRect? || call.DrawIndexed?
  }

  lemma {:induction false} ListCallsAreDrawLoopCalls(n: nat, cmds: seq<DrawCmd>, vertexOffset: nat, indexOffset: nat)
    ensures forall call :: call in ListCalls(n, cmds, vertexOffset, indexOffset) ==> IsDrawLoopCall(call)
  {
    if cmds != [] {
      ListCallsAreDrawLoopCalls(n, cmds[..|cmds| - 1], vertexOffset, indexOffset);
    }
  }

  /** The draw loop creates, destroys, saves and restores nothing. */
  lemma {:induction false} DrawCallsAreDrawLoopCalls(lists: seq<DrawList>)
    ensures forall call :: call in DrawCalls(lists) ==> IsDrawLoopCall(call)
  {
    if lists != [] {
      var init := lists[..|lists| - 1];
      DrawCallsAreDrawLoopCalls(init);
      ListCallsAreDrawLoopCalls(|init|, lists[|lists| - 1].commands, VertexTotal(init), ListsElemTotal(init));
    }
  }

  /** Each call of `render` is a setup call, a draw-loop call or a teardown call, by position. */
  lemma RenderCallAt(lists: seq<DrawList>, displayWidth: int, displayHeight: int, i: nat)
    requires i < |RenderCalls(lists, displayWidth, displayHeight)|
    ensures var calls := RenderCalls(lists, displayWidth, displayHeight);
      |calls| == |SetupCalls(lists, displayWidth, displayHeight)| + |DrawCalls(lists)| + 4 &&
      (i < 14 ==> calls[i] == SetupCalls(lists, displayWidth, displayHeight)[i]) &&
      (14 <= i < |calls| - 4 ==> IsDrawLoopCall(calls[i])) &&
      (|calls| - 4 <= i ==> calls[i] == TeardownCalls()[i - (|calls| - 4)])
  {
    var setup := SetupCalls(lists, displayWidth, displayHeight);
    var draws := DrawCalls(lists);
    var calls := RenderCalls(lists, displayWidth, displayHeight);
    if 14 <= i < |calls| - 4 {
      DrawCallsAreDrawLoopCalls(lists);
      assert calls[i] == draws[i - 14];
    }
  }

  /**
   * The bracket around the draws: the first two calls create one vertex
   * buffer and one index buffer holding the concatenated data, the third
   * saves the render state, ahead of every bind; the last four destroy both
   * buffers, then restore and destroy the saved state.
   */
  lemma RenderBracket(lists: seq<DrawList>, displayWidth: int, displayHeight: int)
    ensures var calls := RenderCalls(lists, displayWidth, displayHeight);
      |calls| >= 18 &&
      calls[0] == CreateVertexBuffer(ConcatVertices(lists)) &&
      calls[1] == CreateIndexBuffer(ConcatIndices(lists)) &&
      calls[2] == SaveRenderState &&
      calls[|calls| - 4..] == TeardownCalls()
  {
    var calls := RenderCalls(lists, displayWidth, displayHeight);
    assert calls[|calls| - 4..] == TeardownCalls();
  }

  /** A call that binds pipeline state or a texture. */
  predicate IsBind(call: ContextCall)
  {
    call.BindShader? || call.BindShaderConstant? || call.BindShaderLayout? || call.BindVertexBuffer? ||
    call.BindIndexBuffer? || call.BindSampler? || call.BindBlendState? || call.BindDepthStencilState? ||
    call.BindRasterState? || call.BindTexture?
  }

  /**
   * `render` creates its two buffers and saves the render state nowhere but
   * at the start, and binds nothing before the state is saved.
   */
  lemma RenderCreatesOnce(lists: seq<DrawList>, displayWidth: int, displayHeight: int)
    ensures var calls := RenderCalls(lists, displayWidth, displayHeight);
      forall i :: 0 <= i < |calls| ==>
        (calls[i].CreateVertexBuffer? ==> i == 0) &&
        (calls[i].CreateIndexBuffer? ==> i == 1) &&
        (calls[i].SaveRenderState? ==> i == 2) &&
        (IsBind(calls[i]) ==> 2 < i)
  {
    var calls := RenderCalls(lists, displayWidth, displayHeight);
    forall i | 0 <= i < |calls|
      ensures calls[i].CreateVertexBuffer? ==> i == 0
      ensures calls[i].CreateIndexBuffer? ==> i == 1
      ensures calls[i].SaveRenderState? ==> i == 2
      ensures IsBind(calls[i]) ==> 2 < i
    {
      RenderCallAt(lists, displayWidth, displayHeight, i);
    }
  }

  /** `render` destroys its buffers and restores the render state nowhere but at the end. */
  lemma RenderRestoresOnce(lists: seq<DrawList>, displayWidth: int, displayHeight: int)
    ensures var calls := RenderCalls(lists, displayWidth, displayHeight);
      forall i :: 0 <= i < |calls| ==>
        (calls[i].DestroyBuffer? ==> |calls| - 4 <= i < |calls| - 2) &&
        (calls[i].ReloadRenderState? ==> i == |calls| - 2) &&
        (calls[i].DestroyRenderState? ==> i == |calls| - 1)
  {
    var calls := RenderCalls(lists, displayWidth, displayHeight);
    forall i | 0 <= i < |calls|
      ensures calls[i].DestroyBuffer? ==> |calls| - 4 <= i < |calls| - 2
      ensures calls[i].ReloadRenderState? ==> i == |calls| - 2
      ensures calls[i].DestroyRenderState? ==> i == |calls| - 1
    {
      RenderCallAt(lists, displayWidth, displayHeight, i);
    }
  }

  // ---------------------------------------------------------------------
  // newFrame
  // ---------------------------------------------------------------------

  /** A device object `createDeviceObjects` makes, in the order it makes them. */
  datatype DeviceObject = Shader | ShaderLayout | ShaderConstant | BlendState | RasterState | DepthStencilState | FontTexture | FontSampler

  function DeviceObjects(): seq<DeviceObject>
  {
    [Shader, ShaderLayout, ShaderConstant, BlendState, RasterState, DepthStencilState, FontTexture, FontSampler]
  }

  /** The fields of ImGui's input record `newFrame` writes from the platform. */
  datatype FrameInput = FrameInput(
    displayWidth: nat, displayHeight: nat,
    keysDown: seq<bool>,
    keyShift: bool, keyCtrl: bool, keyAlt: bool, keySuper: bool,
    mouseX: int, mouseY: int,
    mouseDown: seq<bool>)

  /** The back end's module state: whether the font sampler exists, and every device object created so far. */
  class Backend {
    var fontSamplerCreated: bool
    var created: seq<DeviceObject>

    constructor ()
      ensures !fontSamplerCreated && created == []
    {
      fontSamplerCreated := false;
      created := [];
    }

    /**
     * `createDeviceObjects`: the shader, its layout and constant, the blend,
     * raster and depth-stencil states, then the font texture and sampler.
     * The sampler the render context returns is taken to be non-null.
     */
    method CreateDeviceObjects()
      modifies this
      ensures created == old(created) + DeviceObjects() && fontSamplerCreated
    {
      // With a sampler already present the source calls
      // `invalidateDeviceObjects`, whose body is empty.
      created := created + [Shader, ShaderLayout, ShaderConstant, BlendState, RasterState, DepthStencilState];
      created := created + [FontTexture, FontSampler];
      fontSamplerCreated := true;
    }

    /**
     * `ImGuiImpl::newFrame` for a window of `width` by `height` and the
     * platform's answers `s`: device objects are created only when the font
     * sampler is missing, every key and mouse flag is copied, and each
     * modifier is down when its left or its right key is.
     */
    method NewFrame(width: nat, height: nat, s: InputSnapshot) returns (io: FrameInput)
      requires s.WellFormed()
      modifies this
      ensures created == old(created) + (if old(fontSamplerCreated) then [] else DeviceObjects())
      ensures fontSamplerCreated
      ensures io.displayWidth == width && io.displayHeight == height
      ensures io.keysDown == s.keysDown && io.mouseDown == s.mouseDown
      ensures io.mouseX == s.mouseX && io.mouseY == s.mouseY
      ensures io.keyShift == (s.keysDown[KEY_LSHIFT] || s.keysDown[KEY_RSHIFT])
      ensures io.keyCtrl == (s.keysDown[KEY_LCTRL] || s.keysDown[KEY_RCTRL])
      ensures io.keyAlt == (s.keysDown[KEY_LALT] || s.keysDown[KEY_RALT])
      ensures io.keySuper == (s.keysDown[KEY_LGUI] || s.keysDown[KEY_RGUI])
    {
      if !fontSamplerCreated {
        CreateDeviceObjects();
      }
      var keysDown: seq<bool> := [];
      for i := 0 to KEY_COUNT
        invariant keysDown == s.keysDown[..i]
      {
        keysDown := keysDown + [s.keysDown[i]];
      }
      var shift := s.keysDown[KEY_LSHIFT] || s.keysDown[KEY_RSHIFT];
      var ctrl := s.keysDown[KEY_LCTRL] || s.keysDown[KEY_RCTRL];
      var alt := s.keysDown[KEY_LALT] || s.keysDown[KEY_RALT];
      var super := s.keysDown[KEY_LGUI] || s.keysDown[KEY_RGUI];
      var mouseDown: seq<bool> := [];
      for i := 0 to MOUSE_BUTTON_COUNT
        invariant mouseDown == s.mouseDown[..i]
      {
        mouseDown := mouseDown + [s.mouseDown[i]];
      }
      assert keysDown == s.keysDown && mouseDown == s.mouseDown;
      io := FrameInput(width, height, keysDown, shift, ctrl, alt, super, s.mouseX, s.mouseY, mouseDown);
    }
  }
}
