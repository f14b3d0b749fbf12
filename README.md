# TPP-MLIR layout packing and TPP mapping, modelled in Dafny

TPP-MLIR is a tensor compiler middle-end built on MLIR. Its rewrite patterns:

- recognise linalg operations that are one of the Tensor Processing Primitives (TPP micro-kernels: zero, identity, relu, add, gemm, brgemm);
- mark or replace those operations with the `tpp` dialect;
- re-lay-out matmuls, batch matmuls and 2-D convolutions into blocked ("packed") form around a `linalg.generic` over the blocked operands;
- repack the `B` operand of bf16 matmuls into the VNNI layout;
- turn a batch matmul into a loop of plain matmuls.

This project models those patterns and proves properties of them.

The model has two layers.

- **Graph layer.** The program is a graph of operations (`Ir.Program`), each with:
  - an identifier;
  - a kind (`linalg.matmul`, `linalg.generic` with its indexing maps and iterator kinds, `tensor.pack`, `tpp.brgemm`, …);
  - input and init operands;
  - result types;
  - attributes;
  - a body that the patterns only move, never inspect.

  The pattern rewriter is the class `Ir.Rewriter`. Its `ops` and `next` fields are updated in place by `Create`, `ReplaceOp`, `ReplaceAllUsesWith`, `InlineRegionBefore` and `SetAttr`.

  Every pattern is a method on the rewriter. It is proved equal to a graph function of the old state, and it fails with the source's own message (`Outcome`), leaving the graph untouched, exactly when the source fails. Lemmas then prove that the rewritten graph is closed (every operand is defined, no use of an erased op), that the replaced op is gone and unused, and that the new ops have the types the source gives them.

- **Value layer.** Tensors are integer-valued functions on index boxes (`Tensors.Tensor`). The layer defines:
  - `tensor.pack` / `tensor.unpack` with inner tiles, inner dimension positions and outer permutation (`TensorPack`);
  - the semantics of a `linalg.generic` multiply-accumulate over an explicit loop domain (`Contraction.Eval`);
  - reference matmul, batch matmul and convolutions.

  On this layer the project proves the source's central promise: the packed generic, read back through the unpack, computes the same tensor as the original named op. The proof covers matmul, batch matmul, both convolution forms, the VNNI repacking of a blocked matmul, and the standalone block layout. The same layer shows exactly where that promise breaks (see "## Findings").

Modules, in the order they build on each other:

- Helpers: `Wrappers`, `Sums`, `Affine`, `Tensors`, `TensorPack`, `Contraction`, `Ir`.
- `lib/TPP/ToBlockLayoutAndBack.cpp`: `TppLayouts`, `LayoutOps`, `PackRewrite`, `MatmulPacking`, `PackMatmul`, `ConvPacking`, `PackConv`, `VnniPacking`, `PackVnni`, `PackSimplify`.
- `lib/Standalone/ToBlockLayoutAndBack.cpp`: `BlockLayout`, `StandaloneBlocking`.
- `lib/Standalone/LinalgMapToTpp.cpp`: `LinalgMapToTpp`.
- `lib/TPP/ConvertLinalgToTpp.cpp`: `ConvertToTpp`.
- `lib/TPP/RewriteBatchMatmulToMatmul.cpp`: `BatchMatmulToMatmul`.

## Model

| member | source | states |
|---|---|---|
| TensorPack.PackedShape | lib/TPP/ToBlockLayoutAndBack.cpp:46-48 | the packed type of inferPackedType: the outer sizes (ceiling of size / tile on tiled dims), permuted by the outer permutation, followed by the inner tiles |
| TensorPack.Pack | lib/TPP/ToBlockLayoutAndBack.cpp:53-55 | the pack has exactly the packed shape |
| TensorPack.PackContents | lib/TPP/ToBlockLayoutAndBack.cpp:53-55 | every source element is found at its packed index, and every in-bounds packed position that no source element maps to (the overhang of a partial tile) reads 0. The source packs without a padding value, which leaves those positions undefined; the 0 is this model's convention |
| TensorPack.Unpack | lib/TPP/ToBlockLayoutAndBack.cpp:65-66 | the unpack has the shape of its destination |
| TensorPack.UnpackPack | lib/TPP/ToBlockLayoutAndBack.cpp:53-66 | unpacking a pack with the same layout gives back the source, for every shape |
| TensorPack.PackUnpack | lib/TPP/ToBlockLayoutAndBack.cpp:53-66 | packing an unpack gives back the packed tensor when every tiled dimension is a whole number of tiles |
| TensorPack.PackUnpackNeedsFullTiles | lib/TPP/ToBlockLayoutAndBack.cpp:53-66 | without full tiles the pack-of-unpack round trip fails: a 3-element tensor tiled by 2 |
| TensorPack.PartialTileReadsZero | lib/TPP/ToBlockLayoutAndBack.cpp:53-55 | the model's convention for a partial tile: the position past the end of a 3-element source tiled by 2 has no source element and reads 0 in the model (the source leaves it undefined) |
| TppLayouts.NcToNcnc | lib/TPP/ToBlockLayoutAndBack.cpp:69-84 | NC to NCnc: inner positions {0,1}, or {1,2} for a batch matmul, no outer permutation; a valid layout for two positive tiles |
| TppLayouts.KcToCkkc | lib/TPP/ToBlockLayoutAndBack.cpp:156-169 | KC to CKkc: inner positions {0,1} with outer permutation {1,0}, or {1,2} with {0,2,1} for a batch matmul; valid for two positive tiles |
| TppLayouts.Vnni | lib/TPP/ToBlockLayoutAndBack.cpp:86-93 | VNNI: one tile on dimension rank - 2; valid for a positive tile |
| TppLayouts.BrgemmVnni | lib/TPP/ToBlockLayoutAndBack.cpp:95-102 | brgemm VNNI: one tile on dimension 1 of a rank-3 operand; valid for a positive tile |
| TppLayouts.NchwToNchwc | lib/TPP/ToBlockLayoutAndBack.cpp:130-140 | NCHW to NCHWc: one tile on dimension 1; valid for a positive tile |
| TppLayouts.NpqkToNkpqk | lib/TPP/ToBlockLayoutAndBack.cpp:171-182 | NPQK to NKPQk: one tile on dimension 3, outer permutation {0,3,1,2}; valid for a positive tile |
| TppLayouts.RsckToKcrsck | lib/TPP/ToBlockLayoutAndBack.cpp:198-206 | RSCK to KCRSck: tiles on {2,3}, outer permutation {3,2,0,1}; valid for two positive tiles |
| TppLayouts.KcrsToKcrsck | lib/TPP/ToBlockLayoutAndBack.cpp:209-216 | KCRS to KCRSck: tiles on {1,0}, no outer permutation; valid for two positive tiles |
| TppLayouts.NcShape | lib/TPP/ToBlockLayoutAndBack.cpp:69-84 | an NC matrix packs to [ceil(N/tn), ceil(C/tc), tn, tc] |
| TppLayouts.NcBatchShape | lib/TPP/ToBlockLayoutAndBack.cpp:76-78 | a batched NC tensor keeps its batch size in front: [B, ceil(N/tn), ceil(C/tc), tn, tc] |
| TppLayouts.KcShape | lib/TPP/ToBlockLayoutAndBack.cpp:156-169 | a KC matrix packs to [ceil(C/tc), ceil(K/tk), tk, tc] |
| TppLayouts.VnniShape | lib/TPP/ToBlockLayoutAndBack.cpp:86-93 | a rank-4 blocked B packs to [d0, d1, ceil(d2/v), d3, v] |
| TppLayouts.BrgemmVnniShape | lib/TPP/ToBlockLayoutAndBack.cpp:95-102 | a rank-3 brgemm B packs to [R, ceil(K/v), N, v] |
| TppLayouts.NchwShape | lib/TPP/ToBlockLayoutAndBack.cpp:130-140 | NCHW packs to [N, ceil(C/t), H, W, t] |
| TppLayouts.NpqkShape | lib/TPP/ToBlockLayoutAndBack.cpp:171-182 | NPQK packs to [N, ceil(K/t), P, Q, t] |
| TppLayouts.RsckShape | lib/TPP/ToBlockLayoutAndBack.cpp:198-206 | RSCK packs to [ceil(K/tk), ceil(C/tc), R, S, tc, tk] |
| TppLayouts.KcrsShape | lib/TPP/ToBlockLayoutAndBack.cpp:209-216 | KCRS packs to [ceil(K/tk), ceil(C/tc), R, S, tc, tk] |
| TppLayouts.MatmulLayoutExample | lib/TPP/ToBlockLayoutAndBack.cpp:442-451 | the documented example: [128 x 256] by (32,16) is [4][16][32][16], by (32,8) is [4][32][32][8]; KC [256 x 256] by (8,16) is [16][32][8][16] |
| TppLayouts.NcRead | lib/TPP/ToBlockLayoutAndBack.cpp:69-84 | packed NC element [o0,o1,i0,i1] is source element [o0*tn+i0, o1*tc+i1] |
| TppLayouts.NcBatchRead | lib/TPP/ToBlockLayoutAndBack.cpp:76-78 | the same with the batch index passed through |
| TppLayouts.KcRead | lib/TPP/ToBlockLayoutAndBack.cpp:156-169 | packed KC element [o0,o1,i0,i1] is source element [o1*tk+i0, o0*tc+i1] |
| TppLayouts.KcBatchRead | lib/TPP/ToBlockLayoutAndBack.cpp:163-166 | the same with the batch index passed through |
| TppLayouts.VnniRead | lib/TPP/ToBlockLayoutAndBack.cpp:86-93 | VNNI element [a,b,c,d,e] is blocked-B element [a, b, c*v+e, d] |
| TppLayouts.BrgemmVnniRead | lib/TPP/ToBlockLayoutAndBack.cpp:95-102 | brgemm VNNI element [r,c,n,e] is B element [r, c*v+e, n] |
| TppLayouts.NchwRead | lib/TPP/ToBlockLayoutAndBack.cpp:130-140 | NCHWc element [n,c,h,w,i] is NCHW element [n, c*t+i, h, w] |
| TppLayouts.NpqkRead | lib/TPP/ToBlockLayoutAndBack.cpp:171-182 | NKPQk element [n,k,p,q,i] is NPQK element [n, p, q, k*t+i] |
| TppLayouts.RsckRead | lib/TPP/ToBlockLayoutAndBack.cpp:198-206 | KCRSck element [k,c,r,s,ic,ik] is RSCK element [r, s, c*tc+ic, k*tk+ik] |
| TppLayouts.KcrsRead | lib/TPP/ToBlockLayoutAndBack.cpp:209-216 | KCRSck element [k,c,r,s,ic,ik] is KCRS element [k*tk+ik, c*tc+ic, r, s] |
| TppLayouts.NcReadBack | lib/TPP/ToBlockLayoutAndBack.cpp:124-128 | every source element is found again in the pack at [i/ti, j/tj, i%ti, j%tj] |
| TppLayouts.NcBatchReadBack | lib/TPP/ToBlockLayoutAndBack.cpp:124-128 | the same for a batched tensor |
| TppLayouts.NpqkReadBack | lib/TPP/ToBlockLayoutAndBack.cpp:191-195 | every NPQK element is found again in the pack at [n, k/t, p, q, k%t] |
| TppLayouts.NchwReadBack | lib/TPP/ToBlockLayoutAndBack.cpp:149-153 | every NCHW element is found again in the pack at [n, k/t, p, q, k%t] |
| LayoutOps.ToPackLayout | lib/TPP/ToBlockLayoutAndBack.cpp:39-56 | creates a tensor.empty of the packed type and the pack into it, as ops next and next + 1; the packed value has the inferred packed type |
| LayoutOps.WithPackClosed | lib/TPP/ToBlockLayoutAndBack.cpp:39-56 | adding the empty and the pack keeps the graph closed, defines the packed value and keeps every existing op |
| LayoutOps.UnpackDest | lib/TPP/ToBlockLayoutAndBack.cpp:63-64 | the unpack destination is the output itself, or, when a fill defines it, one of the fill's inits |
| LayoutOps.ToUnPackLayout | lib/TPP/ToBlockLayoutAndBack.cpp:59-67 | creates the unpack into UnpackDest of the output, with that value's type, as op next |
| LayoutOps.UnpackIntoFillInit | lib/TPP/ToBlockLayoutAndBack.cpp:63-64 | unpacking into the fill's init instead of the filled tensor gives the same tensor: the redirect is sound |
| LayoutOps.PackOfFill | lib/TPP/ToBlockLayoutAndBack.cpp:608-631 | with full tiles, packing a filled tensor is the fill of the packed shape: the ground for bubbling a pack up through a fill |
| PackRewrite.CopiedAttrs | lib/TPP/ToBlockLayoutAndBack.cpp:293-294 | the replacement carries a "metadata" attribute exactly when the convolution has one (and copying is asked for), with the same value, and no other attribute |
| PackRewrite.PackInputOperands | lib/TPP/ToBlockLayoutAndBack.cpp:409-415 | packs A into ops n, n + 1 and B into n + 2, n + 3 |
| PackRewrite.PackThree | lib/TPP/ToBlockLayoutAndBack.cpp:409-419 | packs A, B and the init C into ops n .. n + 5; the packed C has the packed type |
| PackRewrite.AttachGeneric | lib/TPP/ToBlockLayoutAndBack.cpp:281-294 | creates the generic on the packs as op n + 6, moves the root's body into it and copies the metadata when asked |
| PackRewrite.PackAndAttach | lib/TPP/ToBlockLayoutAndBack.cpp:409-428 | the packs and the generic together; every op of the old graph is kept, only the root's body moves |
| PackRewrite.ReplaceByUnpack | lib/TPP/ToBlockLayoutAndBack.cpp:430-435 | unpacks the generic's result into the original output and replaces the root by the unpack |
| PackRewrite.ApplyPacking | lib/TPP/ToBlockLayoutAndBack.cpp:405-436 | the whole rewriting half of packMatmulOpImpl and packConvolutions: the state becomes PackedGraph and the generic is op next + 6 |
| PackRewrite.PackedGraphClosed | lib/TPP/ToBlockLayoutAndBack.cpp:405-436 | the packed graph is closed when the operands are defined and the output is not the root's own result |
| MatmulPacking.PackedMatmulWellFormed | lib/TPP/ToBlockLayoutAndBack.cpp:342-377 | the maps and iterators built for matmul (six loops) and batch matmul (seven loops) form a well-formed generic |
| MatmulPacking.BatchGenericWellFormed | lib/TPP/ToBlockLayoutAndBack.cpp:360-375 | the seven-loop maps and iterators built for the batch matmul form a well-formed generic |
| MatmulPacking.PackedMatmulIsMatmul | lib/TPP/ToBlockLayoutAndBack.cpp:405-435 | with full tiles, the generic over packed A, B, C, unpacked into C, equals C + A * B |
| MatmulPacking.PackedBatchMatmulIsBatchMatmul | lib/TPP/ToBlockLayoutAndBack.cpp:360-375 | the same for the batch matmul, batch by batch |
| PackMatmul.PackMatmulCheckSucceeds | lib/TPP/ToBlockLayoutAndBack.cpp:387-404 | packMatmulOp proceeds iff the shape is static, the semantics are tensor, and I, J, K (shifted by one for a batch matmul) are whole numbers of their tiles; then there are three positive tiles |
| PackMatmul.MatmulPartsFit | lib/TPP/ToBlockLayoutAndBack.cpp:405-419 | once the checks pass, the layouts (I,K) on A, (K,J) on B and (I,J) on C fit the operands' ranks |
| PackMatmul.PackMatmulOp | lib/TPP/ToBlockLayoutAndBack.cpp:452-476 | fails, changing nothing, with the first failing message ("require 3 tile factors", "require static shape", "require tensor semantics", "expect full tiles only"); otherwise returns the generic (op next + 6) of PackMatmulRewrite |
| PackMatmul.PackMatmulRewriteClosed | lib/TPP/ToBlockLayoutAndBack.cpp:380-437 | the rewritten graph is closed |
| PackMatmul.PackMatmulPreservesMatmul | lib/TPP/ToBlockLayoutAndBack.cpp:452-459 | whenever packMatmulOp accepts a matmul, its packed generic unpacked equals the matmul on any operands of the op's shapes |
| PackMatmul.PackMatmulPreservesBatchMatmul | lib/TPP/ToBlockLayoutAndBack.cpp:468-476 | the same for the batch matmul |
| ConvPacking.ConvGenericWellFormed | lib/TPP/ToBlockLayoutAndBack.cpp:272-290 | the nine-loop maps (image with stride * p + r, filter, output) and five parallel then four reduction iterators form a well-formed generic |
| ConvPacking.AsWrittenEqualTiles | lib/TPP/ToBlockLayoutAndBack.cpp:244-260 | the layouts as written and the corrected layouts coincide when both tiles are equal |
| ConvPacking.PackedConvIsConv | lib/TPP/ToBlockLayoutAndBack.cpp:262-305 | with K and C whole numbers of tiles, the packed generic unpacked equals the strided convolution, for NHWC/HWCF and NCHW/FCHW |
| PackConv.PackConvCheckSucceeds | lib/TPP/ToBlockLayoutAndBack.cpp:226-231 | a convolution is packed iff K and C are whole numbers of tiles (checked first, at 318-321 and 334-337), the shape is static and the semantics are tensor; then there are two positive tiles |
| PackConv.ConvPartsFit | lib/TPP/ToBlockLayoutAndBack.cpp:244-260 | once the checks pass, both the as-written and the corrected layouts fit image, filter and output |
| PackConv.PackConvolutionWith | lib/TPP/ToBlockLayoutAndBack.cpp:219-307 | fails, changing nothing, with the first failing message; otherwise returns op next + 6 and the graph is PackConvRewriteWith for the given layouts |
| PackConv.PackConvOpAsWritten | lib/TPP/ToBlockLayoutAndBack.cpp:314-339 | the entry points with the layouts as written (C packed by tiles[0], filter K by tiles[1], output K by tiles[0]) |
| PackConv.PackConvOp | lib/TPP/ToBlockLayoutAndBack.cpp:314-339 | the entry points with the layouts the full-tile check validates (K by tiles[0], C by tiles[1]) |
| PackConv.PackConvRewriteClosed | lib/TPP/ToBlockLayoutAndBack.cpp:219-307 | both rewrites keep the graph closed |
| PackConv.PackConvPreservesConv | lib/TPP/ToBlockLayoutAndBack.cpp:262-305 | whenever the checks pass and the convolution's dilations are (1, 1), the corrected packed generic (with the op's strides) unpacked equals the convolution the op denotes, with its strides and dilations |
| PackConv.PackConvCheckIgnoresDilations | lib/TPP/ToBlockLayoutAndBack.cpp:226-231 | the checks give the same outcome whatever the convolution's dilations: only the full tiles, the static shape and the tensor semantics are tested |
| PackConv.DilatedConvMiscomputed | lib/TPP/ToBlockLayoutAndBack.cpp:262-280 | on a convolution with dilations (2, 2) that passes the full-tile check with tiles (1, 1), the packed generic, whose image map is p * stride + r, gives 1 where the dilated convolution gives 2 |
| Tensors.UnitDilationConv | lib/TPP/ToBlockLayoutAndBack.cpp:276-278 | with dilations (1, 1) the convolutions with dilations are the convolutions whose image index is p * stride + r, for both layouts |
| Tensors.DilationChangesConv | lib/TPP/ToBlockLayoutAndBack.cpp:276-278 | an image whose row h holds h, a 2 x 1 filter of ones: the undilated convolution sums rows 0 and 1 (1), the one with dilations (2, 2) rows 0 and 2 (2) |
| PackConv.PackConvRewriteEqualTiles | lib/TPP/ToBlockLayoutAndBack.cpp:244-260 | with equal tiles the as-written rewrite is the corrected one |
| PackConv.ConvTilesMismatch | lib/TPP/ToBlockLayoutAndBack.cpp:244-260 | with tiles [2,1] and output/filter [1,1,1,2], the full-tile check passes but the as-written packed operands do not fit the generic's loops |
| VnniPacking.VnniAsWrittenWellFormed | lib/TPP/ToBlockLayoutAndBack.cpp:524-538 | the generic as written is well formed, with three reductions: r1, r3 and r2 |
| VnniPacking.VnniWellFormed | lib/TPP/ToBlockLayoutAndBack.cpp:524-538 | the corrected generic (B read at [p2, r1, r2 floordiv v, p4, r2 mod v]) is well formed, with the reductions r1 and r2 |
| VnniPacking.VnniMatmulIsBlockedMatmul | lib/TPP/ToBlockLayoutAndBack.cpp:485-546 | the corrected generic on the VNNI-packed B equals the blocked matmul on B |
| VnniPacking.VnniMatmulOvercounts | lib/TPP/ToBlockLayoutAndBack.cpp:526-527 | the as-written generic sums products the blocked matmul does not: 1 where the blocked matmul gives 0 |
| PackVnni.VnniMatmulCheckSucceeds | lib/TPP/ToBlockLayoutAndBack.cpp:488-511 | packVNNIMatmulOp proceeds iff A is bf16, static, tensor, a blocked matmul, B of rank 4 and a blocking factor exists; the factor is the tile |
| PackVnni.PackVnniMatmulOpAsWritten | lib/TPP/ToBlockLayoutAndBack.cpp:485-546 | fails with the first failing message and no change; otherwise packs B (ops next, next + 1), creates the as-written generic as next + 2, moves the body and replaces the matmul |
| PackVnni.PackVnniMatmulOp | lib/TPP/ToBlockLayoutAndBack.cpp:485-546 | the same with the corrected B map |
| PackVnni.VnniMatmulRewriteClosed | lib/TPP/ToBlockLayoutAndBack.cpp:485-546 | both rewrites keep the graph closed |
| PackVnni.PackVnniMatmulPreservesBlockedMatmul | lib/TPP/ToBlockLayoutAndBack.cpp:485-546 | whenever the checks pass, the corrected rewrite computes the blocked matmul it replaces |
| PackVnni.BrgemmVnniCheckSucceeds | lib/TPP/ToBlockLayoutAndBack.cpp:556-571 | packVNNIBRGemmOp proceeds iff A is bf16, the shape is static, the semantics are tensor and a blocking factor exists |
| PackVnni.PackVnniBrgemmOp | lib/TPP/ToBlockLayoutAndBack.cpp:553-586 | fails with the first failing message and no change; otherwise packs B by the literal tile 2 and replaces the brgemm by a tpp.brgemm (op next + 2) on A, packed B and C |
| PackVnni.BrgemmVnniRewriteClosed | lib/TPP/ToBlockLayoutAndBack.cpp:553-586 | the rewrite keeps the graph closed |
| PackVnni.BrgemmVnniHoldsB | lib/TPP/ToBlockLayoutAndBack.cpp:573-577 | B packed by 2 has shape [R, ceil(K/2), N, 2], element [r,k,n] sits at [r, k/2, n, k%2], and unpacking gives B back |
| PackSimplify.SimplifyPackToEmpty | lib/TPP/ToBlockLayoutAndBack.cpp:811-822 | succeeds iff the source operand of the tensor.pack is a tensor.empty, and then replaces the pack by its destination |
| PackSimplify.SimplifyPackToEmptySound | lib/TPP/ToBlockLayoutAndBack.cpp:816-819 | the result is closed, the pack is gone and nothing uses it |
| PackSimplify.BubbleUpThroughFill | lib/TPP/ToBlockLayoutAndBack.cpp:608-631 | succeeds iff a fill with one use defines the source operand of the tensor.pack; then redirects the fill's uses to its init and replaces the pack by a fill of a new empty of the packed type |
| PackSimplify.BubbleUpSound | lib/TPP/ToBlockLayoutAndBack.cpp:622-628 | the result is closed, the pack is gone, and the new fill has the pack's result type |
| PackSimplify.BubbleUpLeavesFillDead | lib/TPP/ToBlockLayoutAndBack.cpp:618-623 | after the rewrite the old fill's result has no users |
| PackSimplify.FillGraphClosed | lib/TPP/ToBlockLayoutAndBack.cpp:622-628 | redirecting the uses, then adding the empty and the packed fill, keeps the graph closed |
| BlockLayout.ToBlockMapsApply | lib/Standalone/ToBlockLayoutAndBack.cpp:25-35 | the input map sends (N, C, n, c) to (N*bf + n, C*bf + c); the output map is the identity on four dims |
| BlockLayout.BlockedShape | lib/Standalone/ToBlockLayoutAndBack.cpp:52-53 | a blocked matrix has four dims, the last two equal to the factor |
| BlockLayout.ToBlock | lib/Standalone/ToBlockLayoutAndBack.cpp:56-62 | the relayout to block form has the blocked shape |
| BlockLayout.FromBlock | lib/Standalone/ToBlockLayoutAndBack.cpp:38-44 | the relayout back has the shape of its destination |
| BlockLayout.ToBlockReadsInputMap | lib/Standalone/ToBlockLayoutAndBack.cpp:25-35 | the blocked element at the output map's image is the source element at the input map's image |
| BlockLayout.FromBlockWritesOutputMap | lib/Standalone/ToBlockLayoutAndBack.cpp:38-44 | with the maps swapped, relayout back writes each blocked element at the input map's image |
| BlockLayout.ToBlockOfFromBlock | lib/Standalone/ToBlockLayoutAndBack.cpp:38-44 | blocking after unblocking gives the blocked tensor back |
| BlockLayout.FromBlockOfToBlock | lib/Standalone/ToBlockLayoutAndBack.cpp:46-64 | unblocking after blocking gives the matrix back when both sizes are multiples of the factor |
| BlockLayout.FromBlockOfToBlockLosesRows | lib/Standalone/ToBlockLayoutAndBack.cpp:52-53 | a [3 x 2] matrix with factor 2 blocks to [1,1,2,2]; row 2 does not survive the round trip |
| BlockLayout.BlockedMatmulWellFormed | lib/Standalone/ToBlockLayoutAndBack.cpp:91-106 | DoItOnMatmul's maps (A {p1,r1,p3,r2}, B {r1,p2,r2,p4}, C {p1,p2,p3,p4}) and iterators form a well-formed generic with reductions r1 and r2 |
| BlockLayout.BlockedMatmulIsMatmul | lib/Standalone/ToBlockLayoutAndBack.cpp:81-122 | with sizes multiples of the factor, the blocked generic relaid out back equals the matmul |
| BlockLayout.BlockedMatmulDropsProducts | lib/Standalone/ToBlockLayoutAndBack.cpp:52-53 | a 1 x 2 by 2 x 1 matmul of ones blocked by 2 gives 0 where the matmul gives 2 |
| BlockLayout.BlockedMatmulKeepsInit | lib/Standalone/ToBlockLayoutAndBack.cpp:52-53 | when the output has fewer rows than the factor, the blocked matmul leaves the output as it was |
| BlockLayout.MapElements | lib/Standalone/ToBlockLayoutAndBack.cpp:154-163 | an elementwise generic has the shape of its destination |
| BlockLayout.SinkElementwise | lib/Standalone/ToBlockLayoutAndBack.cpp:149-178 | when the relu reads the relayout out of the block layout with the pattern's own factor (`FromBlock` with bf), and the sizes are whole blocks, an elementwise op after that relayout equals the op in block form followed by the relayout back |
| StandaloneBlocking.GetReshapedTensor | lib/Standalone/ToBlockLayoutAndBack.cpp:46-64 | creates the init of the blocked type and the relayout with the to-block maps, as ops next and next + 1 |
| StandaloneBlocking.BlockedTypeShape | lib/Standalone/ToBlockLayoutAndBack.cpp:52-55 | the blocked type is static, keeps the element type, and has shape [s0/bf, s1/bf, bf, bf] (floor division) |
| StandaloneBlocking.WithReshapeClosed | lib/Standalone/ToBlockLayoutAndBack.cpp:54-62 | the reshape keeps the graph closed and defines the relayout's result |
| StandaloneBlocking.ReshapeValues | lib/Standalone/ToBlockLayoutAndBack.cpp:81-83 | the loop over the inputs reshapes each in turn; the results are ops next + 1, next + 3, … |
| StandaloneBlocking.ReshapeAllOps | lib/Standalone/ToBlockLayoutAndBack.cpp:81-83 | the loop adds exactly two ops per value and keeps every existing op |
| StandaloneBlocking.BlockedAndBack | lib/Standalone/ToBlockLayoutAndBack.cpp:99-122 | creates the blocked generic, moves the body into it, relays its result back into the output and replaces the root |
| StandaloneBlocking.BlockedThenBackClosed | lib/Standalone/ToBlockLayoutAndBack.cpp:99-121 | the generic and the relayout back keep the graph closed; the relayout has the output's type |
| StandaloneBlocking.DoItOnMatmul | lib/Standalone/ToBlockLayoutAndBack.cpp:72-124 | succeeds iff the shape is static and the semantics are not buffers; then adds eight ops (three reshapes, the generic, the relayout back) and replaces the matmul |
| StandaloneBlocking.DoItOnMatmulClosed | lib/Standalone/ToBlockLayoutAndBack.cpp:72-124 | the result is closed, the matmul is gone and unused, and its replacement has the matmul's type |
| StandaloneBlocking.DoItOnMatmulChecked | lib/Standalone/ToBlockLayoutAndBack.cpp:72-124 | the rewrite with the missing whole-block test added to the match |
| StandaloneBlocking.DoItOnMatmulCheckedIsMatmul | lib/Standalone/ToBlockLayoutAndBack.cpp:81-122 | whenever the checked rewrite applies, the blocked generic relaid out back equals the matmul |
| StandaloneBlocking.DoItOnMatmulAcceptsPartialBlocks | lib/Standalone/ToBlockLayoutAndBack.cpp:74-75 | a static tensor 1 x 2 by 2 x 1 matmul passes the source's test with factor 2 without whole blocks |
| StandaloneBlocking.SinkBlockLayoutAfterRelu | lib/Standalone/ToBlockLayoutAndBack.cpp:136-180 | succeeds iff the generic is marked tpp.relu, has an input, and that input is the sole use of a relayout's result; then reshapes the output, creates the blocked relu on the relayout's source and relays back |
| StandaloneBlocking.LeavesBlockLayoutIsFromBlock | lib/Standalone/ToBlockLayoutAndBack.cpp:144-147 | under the corrected test (the relayout has the from-block maps of the pattern's factor), the relayout reads the blocked tensor at (N, C, n, c) and writes at (N * bf + n, C * bf + c): the input `SinkElementwise` assumes |
| StandaloneBlocking.SinkAcceptsOtherRelayout | lib/Standalone/ToBlockLayoutAndBack.cpp:136-155 | the pattern as written, with factor 2, fires on a relu reading a relayout out of a factor-1 block layout; the blocked relu then reads a [2, 2, 1, 1] tensor into a [1, 1, 2, 2] buffer |
| StandaloneBlocking.SinkGraphClosed | lib/Standalone/ToBlockLayoutAndBack.cpp:149-178 | the graph after sinking is closed, the relu is gone and unused, and the relayout back (op next + 3) has the relu output's type |
| StandaloneBlocking.SinkClosed | lib/Standalone/ToBlockLayoutAndBack.cpp:149-178 | the result is closed, the relu is gone and unused, and the relayout back has the relu's output type |
| LinalgMapToTpp.HasOnlyScalarElementwiseOp | lib/Standalone/LinalgMapToTpp.cpp:43-56 | the loop accepts iff the body is one block of two ops, each the given op or a yield, with integer or float results only |
| LinalgMapToTpp.ScalarElementwiseShape | lib/Standalone/LinalgMapToTpp.cpp:43-56 | on a yield-terminated body that is: the op, then the yield, both with scalar results |
| LinalgMapToTpp.OnlyYieldShape | lib/Standalone/LinalgMapToTpp.cpp:59-63 | only-yield iff one block holding one op, the yield |
| LinalgMapToTpp.ElementwiseKernelsExclusive | lib/Standalone/LinalgMapToTpp.cpp:110-131 | no body is more than one of identity, relu and add |
| LinalgMapToTpp.GemmBodyIsMulAdd | lib/Standalone/LinalgMapToTpp.cpp:82-105 | a body isTPPGemm accepts yields arg2 + arg0 * arg1 |
| LinalgMapToTpp.AccumulateIsSum | lib/Standalone/LinalgMapToTpp.cpp:66-106 | running such a body along the reduction loop gives init + the sum of the products |
| LinalgMapToTpp.MulAddGenericIsMatmul | lib/Standalone/LinalgMapToTpp.cpp:66-106 | a generic with the matmul maps and a multiply-add body computes the matmul |
| LinalgMapToTpp.TppGemmIsMatmul | lib/Standalone/LinalgMapToTpp.cpp:66-106 | every generic isTPPGemm accepts computes the matmul |
| LinalgMapToTpp.NullDefNotMatched | lib/Standalone/LinalgMapToTpp.cpp:96-105 | a gemm-shaped generic whose body only yields a block argument is not matched: the model reports no match where the source has no defining op to match |
| LinalgMapToTpp.YieldOfArgumentReachesNull | lib/Standalone/LinalgMapToTpp.cpp:66-139 | a static generic with the gemm maps and iterators whose body yields arg2 is not elementwise, passes every structural check of isTPPGemm, and yields a block argument, so the matcher runs on a null op; the model picks no kernel |
| LinalgMapToTpp.SwappedGemmNotMatched | lib/Standalone/LinalgMapToTpp.cpp:96-105 | a multiply-add written as (a*b) + acc is not matched: the matcher wants the accumulator first |
| LinalgMapToTpp.MapGenericOpToTpp | lib/Standalone/LinalgMapToTpp.cpp:108-139 | succeeds iff a kernel is found, and then sets library_call to its name and changes nothing else |
| LinalgMapToTpp.KernelForCharacterised | lib/Standalone/LinalgMapToTpp.cpp:108-139 | identity, relu and add are chosen iff the op is elementwise, static and the body matches; matmul iff isTPPGemm; none iff neither |
| LinalgMapToTpp.MapToTppMarks | lib/Standalone/LinalgMapToTpp.cpp:113-135 | marking keeps the graph closed, keeps every other op and leaves the op marked with the kernel |
| ConvertToTpp.Dispatch | lib/TPP/ConvertLinalgToTpp.cpp:36-82 | a success carries a kernel and the operands its matcher bound |
| ConvertToTpp.DispatchFirstMatch | lib/TPP/ConvertLinalgToTpp.cpp:36-82 | the kernel chosen is the first matcher in the order zero, identity, relu, add, bias+relu that binds; failure iff none binds |
| ConvertToTpp.KernelOp | lib/TPP/ConvertLinalgToTpp.cpp:39-77 | the tpp op takes the first operand (zero, identity, relu) or the first two (add, bias+relu) as inputs |
| ConvertToTpp.SingleKernelFacts | lib/TPP/ConvertLinalgToTpp.cpp:39-66 | replacing by one kernel op gives KernelReplaced: closed, root gone and unused, the op in place with the last operand's type, the rest redirected |
| ConvertToTpp.BiasReluFacts | lib/TPP/ConvertLinalgToTpp.cpp:68-78 | bias+relu creates a tpp.add on the first two operands and a tpp.relu on its result that replaces the generic |
| ConvertToTpp.KernelRewriteFacts | lib/TPP/ConvertLinalgToTpp.cpp:36-82 | every kernel's rewrite establishes KernelReplaced |
| ConvertToTpp.EmitKernel | lib/TPP/ConvertLinalgToTpp.cpp:39-78 | the rewriter calls of each kernel produce KernelRewrite; the last op created replaces the root |
| ConvertToTpp.ConvertGenericOpToTpp | lib/TPP/ConvertLinalgToTpp.cpp:84-93 | fails, changing nothing, with GenericRewrite's message; otherwise the state is GenericRewrite's |
| ConvertToTpp.GenericRewriteApplies | lib/TPP/ConvertLinalgToTpp.cpp:84-93 | succeeds iff tensor semantics, a static shape and some matcher binds; "Expect tensor type…" iff not tensor, "Expect static shape…" iff tensor but dynamic |
| ConvertToTpp.GenericRewriteReplaces | lib/TPP/ConvertLinalgToTpp.cpp:36-93 | a success is the dispatched kernel's rewrite and establishes KernelReplaced |
| ConvertToTpp.ConvertContractionToTpp | lib/TPP/ConvertLinalgToTpp.cpp:97-137 | brgemm and matmul: fail with the source's messages, changing nothing, or replace by the tpp op |
| ConvertToTpp.ContractionRewriteFacts | lib/TPP/ConvertLinalgToTpp.cpp:101-135 | succeeds iff tensor and static; the tpp.gemm or tpp.brgemm takes inputs then init as inputs, has the init's type, and replaces the op |
| ConvertToTpp.ConvertFillToTpp | lib/TPP/ConvertLinalgToTpp.cpp:140-164 | fails with the first failing message, changing nothing, or replaces the fill by a tpp.zero |
| ConvertToTpp.FillRewriteFacts | lib/TPP/ConvertLinalgToTpp.cpp:143-162 | succeeds iff tensor, static, zero-valued and of output rank 2; the tpp.zero takes the output and has its type |
| BatchMatmulToMatmul.Slice | lib/TPP/RewriteBatchMatmulToMatmul.cpp:127-139 | one batch of a rank-3 tensor has the trailing two dims |
| BatchMatmulToMatmul.TiledBatchMatmulAt | lib/TPP/RewriteBatchMatmulToMatmul.cpp:127-139 | after s iterations of the batch loop, batch b < s holds the matmul of batch b, the others still hold C |
| BatchMatmulToMatmul.TiledBatchMatmulIsBatchMatmul | lib/TPP/RewriteBatchMatmulToMatmul.cpp:127-139 | the loop of tile size 1 on the batch dimension computes the batch matmul |
| BatchMatmulToMatmul.UnitBatch | lib/TPP/RewriteBatchMatmulToMatmul.cpp:101-118 | the expand of a matrix to a unit batch has shape [1] + shape |
| BatchMatmulToMatmul.UnitBatchMatmulIsMatmul | lib/TPP/RewriteBatchMatmulToMatmul.cpp:101-118 | a batch matmul of unit-batch expands is the unit-batch expand of the matmul. So the rewrite to linalg.matmul is sound when each expand adds a unit batch dimension. The pattern checks only that each expand's source has rank 2. In this pass every batch matmul it sees comes from the batch loop, which tiles the batch by 1, so the batch is a static 1 |
| BatchMatmulToMatmul.RankReducedExtractSliceOp | lib/TPP/RewriteBatchMatmulToMatmul.cpp:30-59 | fails, changing nothing, unless every user is a batch matmul and folding unit sizes lowers the rank; then creates the reduced slice and replaces the slice by its expand |
| BatchMatmulToMatmul.ExtractSliceRewriteFacts | lib/TPP/RewriteBatchMatmulToMatmul.cpp:30-59 | exactly those conditions; the result is closed, the slice is gone, the new slice reads the same source and window, the expand has the old type |
| BatchMatmulToMatmul.CollapsedType | lib/TPP/RewriteBatchMatmulToMatmul.cpp:87-88 | the collapse has one dimension per reassociation group |
| BatchMatmulToMatmul.RankReducedParallelInsertSliceOp | lib/TPP/RewriteBatchMatmulToMatmul.cpp:66-94 | fails, changing nothing, unless folding lowers the source's rank; then collapses the source and replaces the insert by one of the collapse |
| BatchMatmulToMatmul.InsertSliceRewriteFacts | lib/TPP/RewriteBatchMatmulToMatmul.cpp:66-94 | the users test always holds (the insert has no results); the result is closed and the new insert reads the collapse into the same destination |
| BatchMatmulToMatmul.ExpandSourcesAll | lib/TPP/RewriteBatchMatmulToMatmul.cpp:106-112 | the operand loop succeeds iff every operand comes from a rank-2 expand, and collects their sources in order |
| BatchMatmulToMatmul.ExpandSourcesFail | lib/TPP/RewriteBatchMatmulToMatmul.cpp:109-110 | one operand not from a rank-2 expand makes the loop fail |
| BatchMatmulToMatmul.RewriteBatchMatmulToMatmulImpl | lib/TPP/RewriteBatchMatmulToMatmul.cpp:101-118 | fails, changing nothing, unless every operand comes from a rank-2 expand; then replaces the batch matmul by a matmul on the sources |
| BatchMatmulToMatmul.BatchToMatmulFacts | lib/TPP/RewriteBatchMatmulToMatmul.cpp:103-116 | the matmul's inputs are the inputs' expand sources, its init the init's, of rank 2; the graph is closed and the batch matmul replaced |
| BatchMatmulToMatmul.MarkedLoop | lib/TPP/RewriteBatchMatmulToMatmul.cpp:135-137 | the loop carries the parallel attribute with the root value |
| BatchMatmulToMatmul.TileBatchMatmul | lib/TPP/RewriteBatchMatmulToMatmul.cpp:128-138 | one visit: fails, changing nothing, when tiling fails; otherwise creates the tagged loop and replaces the batch matmul by its results |
| BatchMatmulToMatmul.TileBatchMatmuls | lib/TPP/RewriteBatchMatmulToMatmul.cpp:127-139 | the walk over the batch matmuls: the state and failure flag are those of TileWalk |
| BatchMatmulToMatmul.TileOneFacts | lib/TPP/RewriteBatchMatmulToMatmul.cpp:128-138 | a successful visit keeps the graph closed, swaps the batch matmul for the tagged loop and keeps every other op's attributes |
| BatchMatmulToMatmul.TileWalkFacts | lib/TPP/RewriteBatchMatmulToMatmul.cpp:127-139 | after the walk the graph is closed, failure is signalled iff a visited batch matmul is still there, unvisited ops are kept, and every new op is a tagged loop |
| BatchMatmulToMatmul.TileWalkTiled | lib/TPP/RewriteBatchMatmulToMatmul.cpp:127-139 | the same when the first visit tiles |
| Ir.AddOpClosed | lib/TPP/ToBlockLayoutAndBack.cpp:423-426 | creating an op whose operands are defined keeps the graph closed |
| Ir.ReplaceOpErases | lib/TPP/ToBlockLayoutAndBack.cpp:435 | replaceOp erases the op and leaves its results without users |
| Ir.ReplaceOpClosed | lib/TPP/ToBlockLayoutAndBack.cpp:435 | replaceOp with defined values keeps the graph closed |
| Ir.MoveRegionClosed | lib/TPP/ToBlockLayoutAndBack.cpp:427-428 | inlineRegionBefore keeps the graph closed |
| Ir.ReplaceAllUsesClosed | lib/TPP/ToBlockLayoutAndBack.cpp:623 | replaceAllUsesWith a defined value keeps the graph closed and leaves the old value unused |
| Ir.ReplacedFacts | lib/TPP/ConvertLinalgToTpp.cpp:41-42 | replaceOpWithNewOp of a single-result op: closed, the old op gone and unused, the new op in place, the rest redirected |
| Ir.Rewriter.constructor | lib/TPP/RewriteBatchMatmulToMatmul.cpp:125 | the rewriter starts on the given graph |
| Ir.Rewriter.Create | lib/TPP/ToBlockLayoutAndBack.cpp:423-426 | create adds the op under the next identifier |
| Ir.Rewriter.ReplaceAllUsesWith | lib/TPP/ToBlockLayoutAndBack.cpp:623 | every use of the old value reads the new one |
| Ir.Rewriter.ReplaceOp | lib/TPP/ToBlockLayoutAndBack.cpp:435 | the op is erased and each of its results is replaced by the matching value |
| Ir.Rewriter.ReplaceOpWithNewOp | lib/TPP/ConvertLinalgToTpp.cpp:41-42 | create, then replaceOp with the new op's results |
| Ir.Rewriter.ReplaceWithNew | lib/TPP/ConvertLinalgToTpp.cpp:41-42 | the same for a single result: the state is Replaced |
| Ir.Rewriter.InlineRegionBefore | lib/TPP/ToBlockLayoutAndBack.cpp:427-428 | the body moves to the new op and leaves the old one empty |
| Ir.Rewriter.SetAttr | lib/TPP/ToBlockLayoutAndBack.cpp:293-294 | sets one attribute of one op |

## Left out

- Pass drivers are not modelled: the greedy driver, the pass classes, the `populate…` functions, the factories, and the canonicalisation and scf patterns step 2 of RewriteBatchMatmulToMatmul adds. Each pattern is modelled as one application to one op.
- ToBlockLayoutAndBack::runOnOperation (lib/Standalone/ToBlockLayoutAndBack.cpp:192-200) and its early return when the factor is 0 are not modelled; the patterns take a positive factor.
- createToBlockLayoutAndBackPass ignores its blocking factor (lib/Standalone/ToBlockLayoutAndBack.cpp:205-208). This is not modelled because the factory is not.
- PackMatmul::runOnOperation's early return on empty factors is not modelled.
- The greedy rewrite driver's fixpoint and ordering are not modelled. Neither are insertion points or source locations.
- These callees are parameters of the patterns, not models:
  - `linalg::isElementwise`, and the TppUtils matchers (`isTppZero`, `isTppIdentity`, `isTppRelu`, `isTppAdd`, `isTppBiasRelu`);
  - `isZeroTensor`, `isBlockedMatmul` and `getVnniBlockingFactor`;
  - `getReassociationMapForFoldingUnitDims` and `inferCanonicalRankReducedResultType`;
  - `scf::tileUsingSCFForOp`, which returns a loop op.

  Their definitions are not part of this model.
- The matcher arity assertions (lib/TPP/ConvertLinalgToTpp.cpp:40, 47, 54, 61, 69) are a requirement on the matchers (`MatchersBind`), not a check.
- Numerics are over unbounded integers. bf16 is an element-type tag, with no floating-point rounding.
- The values inside a slice are not modelled; only the types of extract/insert slices are. The batch loop is proved on tensor values separately (`TiledBatchMatmulIsBatchMatmul`).
- Ir.OpKind.ExtractSlice / Ir.OpKind.ParallelInsertSlice: offsets, sizes and strides are integer constants. In the batch loop the offset is the induction variable, a value the graph cannot express. The patterns copy the offsets unchanged, so no rewrite decision depends on them.
- Named ops and tpp ops carry no body. A generic's body is opaque and is only moved. Its scalar semantics are modelled where a proof needs them: the multiply-add of isTPPGemm, and elementwise functions.
- `isMarkedWithTpp` is modelled as library_call equal to the name.
- LinalgMapToTpp.IsTppGemm: when the yielded value is a block argument, it has no defining op, and isTPPGemm as written runs the matchers on a null op (lib/Standalone/LinalgMapToTpp.cpp:96-105), which has no defined outcome. The model treats that case as no match (fifth finding).
- TensorPack.Pack: every pack in the source is built with no padding value (lib/TPP/ToBlockLayoutAndBack.cpp:54). `tensor.pack` leaves undefined the positions of a tile that does not divide its dimension, and the model reads them as 0. That 0 is the model's convention, not the program's behaviour. It matters for the VNNI packs, which do not check that the tile divides K.
- StandaloneBlocking.SinkBlockLayoutAfterRelu / StandaloneBlocking.BlockedType: SinkBlockLayoutAfterRelu checks no static shape, so a relu output with a dynamic size reaches getReshapedTensor. There the source divides the dynamic sentinel -1 by the factor with truncation: 0 for a factor above 1 (lib/Standalone/ToBlockLayoutAndBack.cpp:52-53). The model writes a dynamic size as -1 (`Ir.Sizes`) and divides with Dafny's Euclidean `/`, which keeps -1. For a dynamic size, the model's blocked extent therefore differs from the source's.
- PackConv.PackConvPreservesConv: holds only for a convolution with dilations (1, 1). The source never reads the dilations, neither in the checks nor in the image map (lib/TPP/ToBlockLayoutAndBack.cpp:262-280), so a dilated convolution is rewritten to a different result (second finding).
- LayoutOps.LoopBounds: the iteration domain of each named op is written out by hand, in the loop order of `getIterationDomain` as this model assumes it; that function is not part of this model.
- LayoutOps.FullTilesOnDims: `validateFullTilesOnDims` is not part of this model. The assumed semantics: a tile of 0 is rejected, a loop bound that is dynamic (-1) is rejected, and more tiles than checked dimensions are accepted (`|tiles| >= |dims|`).
- BlockLayout.ToBlock: `linalgx.relayout` is not part of this model. The assumed semantics: the loops run over the output of the to-block maps (the blocked tensor), and each blocked element reads the source at the input map's image.
- BlockLayout.FromBlock: the same assumed relayout semantics, with the loops over the blocked tensor. Each blocked element is written at the output map's image, and an element of the destination that no loop point reaches keeps its value.
- StandaloneBlocking.SinkBlockLayoutAfterRelu: the pattern checks no rank of the relu output (lib/Standalone/ToBlockLayoutAndBack.cpp:136-147), but the model requires a rank-2 output (`IsMatrix` in `ReluGeneric`). On that output getReshapedTensor reads shape[0] and shape[1] (52-53): a rank-1 output is read out of bounds, and on a rank above 2 only the first two dimensions are blocked and the rest are dropped. Neither case is modelled. DoItOnMatmul, the other caller, passes the operands of a matmul, which are rank 2.
- `TypeAt` and `GroupExtent` are total functions. On inputs the source never produces (an undefined value, a dimension outside a group) they return a placeholder.
- StandaloneBlocking.SinkBlockLayoutAfterRelu: the value-level soundness (`BlockLayout.SinkElementwise`) has two premises the pattern does not check. First, the relu's input must be the relayout out of the block layout with the pattern's own factor: the pattern accepts any relayout with one use, whatever its maps (lib/Standalone/ToBlockLayoutAndBack.cpp:144-147; sixth finding). Second, the sizes must be multiples of the factor; without that, the relayout back loses elements, as the fourth finding shows.
- StandaloneBlocking.SinkClosed does not state that the old relayout becomes unused, only that the relu is gone.
- BatchMatmulToMatmul.InsertSliceRewriteFacts: the users test of RankReducedParallelInsertSliceOp is modelled as written. It holds vacuously, because the insert has no results.
- In the batch walk, `return signalPassFailure()` only ends that visit of the callback (lib/TPP/RewriteBatchMatmulToMatmul.cpp:133-134). The model keeps walking and records the failure.
- `kLoopParallel` and `kLoopRoot` are parameters (`name`, `root`). Their values are not part of this model.
- PackVnni.PackVnniBrgemmOp packs B by the literal tile 2, as written (lib/TPP/ToBlockLayoutAndBack.cpp:573), and not by the blocking factor it computed. This is correct only when the factor is 2; the model keeps the 2.
- packVNNIMatmulOp rejects a B operand whose rank is not 4 ("already packed to VNNI"), so it requires rank 4. The model follows the code.
- The conversion of tile operands (OpFoldResult) to integers is not modelled; tiles are integers.

## Findings

| source | as written | input that shows it | evidently intended | confidence | as-written member | corrected member |
|---|---|---|---|---|---|---|
| lib/TPP/ToBlockLayoutAndBack.cpp:244-260 | the full-tile check validates tiles[0] on K and tiles[1] on C (318-321, 334-337), but packConvolutions packs the image's C by tiles[0], the filter as (C by tiles[0], K by tiles[1]) and the output's K by tiles[0] | NHWC convolution with output and filter [1,1,1,2] and tiles [2,1]: the check passes, but the filter's inner K tile (1) and the output's (2) disagree, so the operands do not fit the generic's loops | K packed by tiles[0] and C by tiles[1] on every operand, as the check assumes | not executed | PackConv.ConvTilesMismatch | PackConv.PackConvPreservesConv |
| lib/TPP/ToBlockLayoutAndBack.cpp:262-280 | packConvolutions reads only the strides of the convolution; its checks (226-231) and its image map p * stride + r (276-278) ignore the dilations | NHWC image [1,3,1,1] whose row h holds h, filter [2,1,1,1] of ones, output [1,1,1,1] of 0, dilations (2, 2), tiles (1, 1): the rewrite gives 1, the dilated convolution 2 | reject a convolution whose dilations are not (1, 1), or use them in the image map (p * stride + r * dilation) | not executed | PackConv.DilatedConvMiscomputed | PackConv.PackConvPreservesConv |
| lib/TPP/ToBlockLayoutAndBack.cpp:524-528 | the VNNI generic reads B at (p2, r1, r2 floordiv v, p4, r3), where r3 is a fourth, independent reduction loop | blocked A and B with a K block of 2 and v = 2: the generic sums the cross products A[k]·B[k'] for k ≠ k', giving 1 where the blocked matmul gives 0 | B read at (p2, r1, r2 floordiv v, p4, r2 mod v), so each product uses the same k | not executed | VnniPacking.VnniMatmulOvercounts | VnniPacking.VnniMatmulIsBlockedMatmul |
| lib/Standalone/ToBlockLayoutAndBack.cpp:52-53 | the blocked shape divides with truncation, and DoItOnMatmul (74-75) does not check that the sizes are multiples of the factor | a 1 x 2 by 2 x 1 matmul of ones with factor 2: the blocked C is [0,1,2,2], so no product is summed and the result stays 0 instead of 2 | reject the match unless both sizes of every operand are multiples of the factor | not executed | BlockLayout.BlockedMatmulDropsProducts | StandaloneBlocking.DoItOnMatmulCheckedIsMatmul |
| lib/Standalone/LinalgMapToTpp.cpp:96-105 | maybeAdd is the defining op of the yielded value, which is null when that value is a block argument; the matchers then apply `isa` to the null op | a generic with iterators (parallel, parallel, reduction), the matmul maps, static shapes and a three-argument block that only yields its third argument | return false when maybeAdd is null | not executed | LinalgMapToTpp.YieldOfArgumentReachesNull | LinalgMapToTpp.NullDefNotMatched |
| lib/Standalone/ToBlockLayoutAndBack.cpp:144-147 | the relu's input only has to be some `linalgx.relayout` with one use; neither its maps nor its blocking factor are checked, yet the rewrite reads the relayout's source as the blocked tensor of the pattern's factor (149-178) | a 2x2 relu marked tpp.relu reading a relayout from a [2,2,1,1] tensor with the from-block maps of factor 1, pattern factor 2: the pattern fires and the blocked relu reads [2,2,1,1] into a [1,1,2,2] buffer | also require the relayout's maps to be getMapsFromBlockLayoutNC_NCnc of the pattern's factor | not executed | StandaloneBlocking.SinkAcceptsOtherRelayout | StandaloneBlocking.LeavesBlockLayoutIsFromBlock |
