# Image post-processing: a Dafny model

This project models the per-pixel core of the WebGL image post-processing page `post-processing/imageProcessing.js`. It has two parts:

- **The fragment shader's pixel pipeline.** `main()` composites a foreground texture over a background texture (`alphaBlending()`), or runs one background-only filter: `smoothColor()`, `sharpenColor()`, `laplacianColor()`, `gradientColor()`, or the raw background sample. It then applies `grayScaleColor()` and `sepiaColor()` when they are switched on. Finally it applies the contrast/brightness map, which always runs.
- **The page's handler state.** The global switches and slider values are set by the button handlers (`greyScaleFilter`, `sepiaFilter`, `contrastFilter`, `smoothFilter`, `sharpenFilter`, `laplacianFilter`, `gradientFilter`, `backgroundTexture`, `alphaBlending`). `drawSquare` hands them to the shader as uniforms.

Modules:

- `Color`: RGBA colours over the reals, and their component-wise arithmetic.
- `Kernels`: the three 3x3 convolutions, each specified by a recursive sum in the shader's loop order. `Accumulate` is the nested `for` loop proved against that sum. It also proves that reading `mat3` by columns (as GLSL fills it) or by rows gives the same result for these symmetric kernels.
- `Gradient`: the central-difference gradient magnitude. `sqrt` is the non-negative square root, defined by choice.
- `Transforms`: grayscale, sepia, the alpha-over blend and contrast/brightness.
- `Shader`: the uniforms and `main()`, in the exact order in which it overwrites `colorFilter`.
- `Controls`:
  - `Handle`, a pure transition for one handler call, and `Run` for a sequence of calls;
  - the invariant that at most one flag of each group (kernel, tone, mode) is set, and a proof that every reachable state keeps it;
  - a reference pipeline over tagged values (`Mode`, `Filter`, `Tone`), proved equal to the shader's flag-by-flag dispatch in every reachable state;
  - `ControlPanel`, a class with the globals as fields and one method per handler, each proved to perform `Handle`.
- `Texture`: concrete samplers over a texel grid, under clamp-to-edge and under repeat. It also holds two end-to-end properties: smoothing a single-coloured image, and blending half-transparent blue over red.

Behaviour of the shader worth stating explicitly:

- **Neither mode flag set.** When neither `alphaBlend` nor `backgroundOnly` is 1, the shader never assigns `colorFilter`, so its value is undefined. `unset` is an explicit input; no default, such as the background sample, is assumed. This state is reachable: it is the initial state, until a mode button is pressed (`Controls.ModeChosenOnceSelected`).
- **Both mode flags set.** The filter branch runs after the blend and overwrites it, so the filter wins, whereas the tagged reference mode `Controls.ModeOf` names the blend (`Controls.BothModesFilterWins`). The handlers never reach this state.
- **Sampling at the edges.** The page never sets a wrap mode, so WebGL's default `REPEAT` applies. Both repeat and clamp-to-edge samplers are modelled. The pipeline itself is stated over any `Sampler`.
- **Slider values.** They are not clamped: contrast is `value / 100` and brightness `value / 10`, whatever the value.
- **Initial brightness.** It is 0, so a first frame would be black. The page's start-up calls `contrastFilter()`, which reads the sliders.

## Model

| member | source | states |
|---|---|---|
| Kernels.Accumulate | post-processing/imageProcessing.js:150-159 | the nested loops over i then j in -1..1 accumulate `sample(i,j) * kernel[i+1][j+1]`, and the result equals the loop-order kernel sum |
| Kernels.KernelSumStep | post-processing/imageProcessing.js:152-158 | loop step (i, j) adds term `3*(i+1) + (j+1)` of the loop-order sum, i.e. `sample(i,j) * kernel[i+1][j+1]` |
| Kernels.SmoothColor | post-processing/imageProcessing.js:140-162 | `smoothColor()` returns the box-kernel sum divided by 9 |
| Kernels.SharpenColor | post-processing/imageProcessing.js:164-186 | `sharpenColor()` returns the sharpen-kernel sum divided by 1 |
| Kernels.LaplacianColor | post-processing/imageProcessing.js:188-210 | `laplacianColor()` returns the Laplacian-kernel sum with alpha forced to 1; the kernel weight is unused |
| Kernels.LaplacianOf | post-processing/imageProcessing.js:188-210 | the Laplacian result is four times the centre sample minus the four edge neighbours (up, down, left, right), with alpha forced to 1 |
| Kernels.Smoothed | post-processing/imageProcessing.js:140-162 | the smooth result is the plain sum of the nine neighbours divided by 9 |
| Kernels.Sharpened | post-processing/imageProcessing.js:164-186 | the sharpen result is five times the centre sample minus the four edge neighbours |
| Kernels.BoxSumIsNeighbourSum | post-processing/imageProcessing.js:142-159 | every partial sum of the box kernel is the plain sum of the same neighbours |
| Kernels.KernelsCrossShaped | post-processing/imageProcessing.js:166-194 | the sharpen and Laplacian kernels are the cross with centre 5 and with centre 4: -1 at the four edge neighbours, 0 at the corners |
| Kernels.CrossKernelSum | post-processing/imageProcessing.js:176-183 | the loop-order sum of a cross kernel is the centre weight times the centre sample minus the four edge neighbours |
| Kernels.CrossMiddleColumn | post-processing/imageProcessing.js:176-183 | after the first two columns of the loop, the cross-kernel sum holds the centre term minus the left, lower and upper neighbours |
| Kernels.CrossFirstColumn | post-processing/imageProcessing.js:176-183 | after the first column of the loop, the cross-kernel sum holds minus the left neighbour |
| Kernels.KernelWeights | post-processing/imageProcessing.js:142-196 | the kernel entries sum to 9 (smooth), 1 (sharpen) and 0 (Laplacian), so smooth and sharpen preserve a flat colour and the Laplacian cancels it |
| Kernels.KernelsSymmetric | post-processing/imageProcessing.js:142-194 | the three kernels are symmetric, so `kernel[c][r] == kernel[r][c]` |
| Kernels.SymmetricIndexOrder | post-processing/imageProcessing.js:157 | for a symmetric kernel, indexing `kernel[i+1][j+1]` column-major (as GLSL fills `mat3`) gives the same sum as indexing it by rows |
| Kernels.KernelSumUniform | post-processing/imageProcessing.js:150-159 | over a uniform neighbourhood of colour c, the partial kernel sum is c times the partial sum of the weights |
| Kernels.SmoothUniform | post-processing/imageProcessing.js:140-162 | smoothing a uniform neighbourhood returns its colour |
| Kernels.SharpenUniform | post-processing/imageProcessing.js:164-186 | sharpening a uniform neighbourhood returns its colour |
| Kernels.LaplacianUniform | post-processing/imageProcessing.js:188-210 | the Laplacian of a uniform neighbourhood is opaque black |
| Gradient.Sqrt | post-processing/imageProcessing.js:222 | `sqrt` returns a non-negative value |
| Gradient.SqrtOfSquare | post-processing/imageProcessing.js:222 | `sqrt(y*y) == abs(y)` |
| Gradient.ChannelGradient | post-processing/imageProcessing.js:219-222 | one channel of the gradient magnitude is non-negative |
| Gradient.GradientOf | post-processing/imageProcessing.js:212-225 | `gradientColor()` is opaque and every colour channel is non-negative |
| Gradient.MagnitudeOneAxis | post-processing/imageProcessing.js:222 | with one difference zero, the magnitude is the absolute value of the other |
| Gradient.FlatAxis | post-processing/imageProcessing.js:219-222 | a zero difference on one axis leaves half the absolute difference on the other |
| Gradient.FlatVertical | post-processing/imageProcessing.js:214-222 | a channel with equal up and down samples has gradient `abs(right - left) / 2` |
| Gradient.FlatHorizontal | post-processing/imageProcessing.js:214-222 | a channel with equal left and right samples has gradient `abs(up - down) / 2` |
| Gradient.GradientUniform | post-processing/imageProcessing.js:212-225 | the gradient of a uniform neighbourhood is opaque black |
| Gradient.GradientWithoutVerticalChange | post-processing/imageProcessing.js:212-225 | where up equals down, each gradient channel is half the absolute right-minus-left change |
| Gradient.GradientWithoutHorizontalChange | post-processing/imageProcessing.js:212-225 | where left equals right, each gradient channel is half the absolute up-minus-down change |
| Transforms.LumaWeightsSumToOne | post-processing/imageProcessing.js:118 | the luminance weights 0.2126, 0.7152 and 0.0722 sum to 1 |
| Transforms.LumaOfGrey | post-processing/imageProcessing.js:118-119 | the luminance of a grey is its grey level |
| Transforms.GrayScale | post-processing/imageProcessing.js:117-122 | `grayScaleColor()` gives a grey that keeps the input's luminance and alpha |
| Transforms.GrayScaleIdempotent | post-processing/imageProcessing.js:117-122 | grayscale applied twice equals grayscale once |
| Transforms.GrayScaleFixesGrey | post-processing/imageProcessing.js:117-122 | grayscale leaves a grey unchanged |
| Transforms.Sepia | post-processing/imageProcessing.js:124-131 | `sepiaColor()` sets alpha to the `color` uniform's alpha |
| Transforms.SepiaOfRed | post-processing/imageProcessing.js:126-128 | pure red maps to the first column of the sepia matrix, (0.393, 0.349, 0.272) |
| Transforms.SepiaOfGreen | post-processing/imageProcessing.js:126-128 | pure green maps to the second column of the sepia matrix, (0.769, 0.686, 0.534) |
| Transforms.SepiaOfBlue | post-processing/imageProcessing.js:126-128 | pure blue maps to the third column of the sepia matrix, (0.189, 0.168, 0.131) |
| Transforms.SepiaLinear | post-processing/imageProcessing.js:126-128 | on rgb, sepia is linear |
| Transforms.ToneOrderMatters | post-processing/imageProcessing.js:250-256 | grayscale-then-sepia differs from sepia-then-grayscale on pure red, so the shader's order is observable |
| Transforms.AlphaBlend | post-processing/imageProcessing.js:133-138 | the blend is opaque; foreground alpha 0 gives the background's rgb; alpha 1 gives the foreground's rgb; for alpha in [0,1], each channel lies between the two inputs |
| Transforms.BlendBetween | post-processing/imageProcessing.js:137 | a weighted average `y*t + x*(1-t)` with t in [0,1] lies between x and y |
| Transforms.ContrastBrightness | post-processing/imageProcessing.js:258-259 | alpha passes through; contrast 0 and brightness 1 is the identity; brightness 0 gives black rgb; contrast -1 gives a flat grey of `0.5 * brightness` |
| Transforms.ContrastKeepsMidGrey | post-processing/imageProcessing.js:258-259 | a colour whose three channels are mid grey 0.5 maps to `0.5 * brightness` in each channel, whatever the contrast |
| Transforms.LumaOfContrast | post-processing/imageProcessing.js:258-259 | the luminance of a contrast/brightness-mapped colour is the same map applied to the luminance |
| Transforms.LumaOfAffine | post-processing/imageProcessing.js:118-119 | luminance commutes with any map `v * m + q` applied to all three channels |
| Transforms.GrayScaleCommutesWithContrast | post-processing/imageProcessing.js:251-259 | grayscale commutes with the contrast/brightness map |
| Shader.Main | post-processing/imageProcessing.js:227-260 | brightness 0 yields black rgb; with sepia on, the output alpha is the `color` uniform's alpha |
| Shader.FilterStage | post-processing/imageProcessing.js:232-248 | with no kernel flag set the filter branch returns the raw background sample; the Laplacian and gradient branches, when no earlier kernel is set, give an opaque result |
| Shader.Composite | post-processing/imageProcessing.js:229-248 | with `backgroundOnly` on, `colorFilter` is the filter branch's result; with only `alphaBlend` on, it is the alpha-over blend of the foreground on the background sample, which is opaque; with neither, it stays the unassigned value |
| Shader.ToneStage | post-processing/imageProcessing.js:250-256 | sepia sets alpha to the `color` uniform's alpha; grayscale without sepia gives equal rgb channels and keeps alpha; with neither switch the colour passes through |
| Shader.FilterOverwritesBlend | post-processing/imageProcessing.js:229-248 | with `backgroundOnly` on, the output depends neither on the foreground nor on the unassigned value: the filter branch overwrites the blend |
| Shader.BlendIsOpaque | post-processing/imageProcessing.js:229-230 | in blend mode without sepia the output is opaque |
| Shader.BlendOutput | post-processing/imageProcessing.js:227-260 | in blend mode with neutral post-processing the output is exactly `fg.rgb * fg.a + bg.rgb * (1 - fg.a)` with alpha 1 |
| Shader.MainBlends | post-processing/imageProcessing.js:227-260 | in blend mode with neutral post-processing, `main()` outputs the alpha-over blend of the foreground on the background sample unchanged |
| Shader.FilterPriority | post-processing/imageProcessing.js:234-247 | smooth, sharpen, Laplacian and gradient take priority in that order |
| Shader.BackgroundPassthrough | post-processing/imageProcessing.js:246-247 | with `backgroundOnly`, no kernel and neutral post-processing, the output is the raw background sample |
| Shader.EdgeFiltersAreOpaque | post-processing/imageProcessing.js:239-244 | the Laplacian and the gradient make the output opaque unless sepia replaces alpha |
| Shader.UniformSmoothSharpen | post-processing/imageProcessing.js:232-237 | smoothing or sharpening a uniform neighbourhood, with neutral post-processing, outputs that colour |
| Shader.UniformEdgesAreBlack | post-processing/imageProcessing.js:239-244 | edge detection of a uniform neighbourhood, with neutral post-processing, outputs opaque black |
| Shader.GrayScaleBeforeSepia | post-processing/imageProcessing.js:250-256 | with both tone switches on, the output is sepia of the grey |
| Controls.OneHot | post-processing/imageProcessing.js:492-503 | a group assignment sets exactly one flag of the group and clears the rest |
| Controls.Handle | post-processing/imageProcessing.js:463-558 | each handler sets its flag to one and clears the others in its group; a kernel button also clears both tone flags; groups it does not touch keep their values; the sliders set contrast to value/100 and brightness to value/10 |
| Controls.OneHotAtMostOneSet | post-processing/imageProcessing.js:492-503 | a one-flag group satisfies the at-most-one-set invariant |
| Controls.HandleKeepsExclusive | post-processing/imageProcessing.js:463-558 | every handler preserves "at most one flag set" in each of the kernel, tone and mode groups |
| Controls.InitialExclusive | post-processing/imageProcessing.js:59-68 | the declared initial globals satisfy the invariant |
| Controls.ReachableExclusive | post-processing/imageProcessing.js:463-558 | every state reachable from the initial globals by handler calls satisfies the invariant |
| Controls.HandleIdempotent | post-processing/imageProcessing.js:463-558 | calling the same handler twice is the same as calling it once |
| Controls.ModeChosenOnceSelected | post-processing/imageProcessing.js:544-558 | a mode is on exactly when some mode button has been pressed; before that, neither mode is on |
| Controls.UniformsOf | post-processing/imageProcessing.js:393-409 | the uniforms sent by `drawSquare` carry the opaque drawing colour |
| Controls.FilterMatchesReference | post-processing/imageProcessing.js:232-248 | with at most one kernel flag, the shader's filter branch applies the filter the flags name |
| Controls.CompositeMatchesReference | post-processing/imageProcessing.js:229-248 | with at most one kernel flag and at most one mode flag, compositing follows the tagged mode |
| Controls.ToneMatchesReference | post-processing/imageProcessing.js:250-256 | with at most one tone flag, the tone steps apply the tagged tone |
| Controls.DispatchMatchesReference | post-processing/imageProcessing.js:227-260 | under the invariant, `main()` equals the reference pipeline over tagged mode, filter and tone |
| Controls.BothModesFilterWins | post-processing/imageProcessing.js:229-232 | with both mode flags set, the filter overwrites the blend, while the tagged reference mode names the blend |
| Controls.ReachableDispatch | post-processing/imageProcessing.js:463-558 | after any sequence of handler calls, `main()` equals the reference pipeline |
| Controls.DrawnSepiaIsOpaque | post-processing/imageProcessing.js:608 | since `drawScene` passes an opaque red colour, sepia output is opaque |
| Controls.ControlPanel.constructor | post-processing/imageProcessing.js:51-68 | the globals start at their declared values, which satisfy the invariant |
| Controls.ControlPanel.GreyScaleFilter | post-processing/imageProcessing.js:463-469 | sets grayscale, clears sepia, changes nothing else, keeps the invariant |
| Controls.ControlPanel.SepiaFilter | post-processing/imageProcessing.js:471-477 | sets sepia, clears grayscale, changes nothing else, keeps the invariant |
| Controls.ControlPanel.ContrastFilter | post-processing/imageProcessing.js:479-485 | sets contrast to value/100 and brightness to value/10, changes nothing else |
| Controls.ControlPanel.SmoothFilter | post-processing/imageProcessing.js:492-503 | sets smooth, clears the other kernels and both tones, keeps the invariant |
| Controls.ControlPanel.SharpenFilter | post-processing/imageProcessing.js:505-516 | sets sharpen, clears the other kernels and both tones, keeps the invariant |
| Controls.ControlPanel.LaplacianFilter | post-processing/imageProcessing.js:518-529 | sets Laplacian, clears the other kernels and both tones, keeps the invariant |
| Controls.ControlPanel.GradientFilter | post-processing/imageProcessing.js:531-542 | sets gradient, clears the other kernels and both tones, keeps the invariant |
| Controls.ControlPanel.BackgroundTexture | post-processing/imageProcessing.js:544-550 | sets background-only, clears blend, keeps the invariant |
| Controls.ControlPanel.AlphaBlending | post-processing/imageProcessing.js:552-558 | sets blend, clears background-only, keeps the invariant |
| Texture.Clamp | post-processing/imageProcessing.js:156-157 | a clamped index lies in range, and in-range indices are unchanged |
| Texture.At | post-processing/imageProcessing.js:156-157 | an in-range read returns that texel; a read past an edge returns the nearest texel on that edge |
| Texture.WrappedAt | post-processing/imageProcessing.js:156-157 | under repeat, an in-range read returns that texel |
| Texture.WrappedPeriodic | post-processing/imageProcessing.js:156-157 | under repeat, shifting a read by the texture's width or height reads the same texel |
| Texture.NeighbourhoodAt | post-processing/imageProcessing.js:152-158 | offset `(i, j)` reads column `x + i`, row `y + j` (row 0 at the bottom) while that lies inside the image; past the left or right edge it reads the edge column of that row |
| Texture.WrappedNeighbourhoodAt | post-processing/imageProcessing.js:152-158 | under repeat, offset `(i, j)` reads column `x + i`, row `y + j` while that lies inside the image |
| Texture.SolidNeighbourhoodsAreUniform | post-processing/imageProcessing.js:156-157 | under clamp-to-edge, every neighbourhood of a single-coloured texture is uniform, border texels included |
| Texture.SolidWrappedNeighbourhoodsAreUniform | post-processing/imageProcessing.js:156-157 | the same under the repeat wrap mode |
| Texture.SmoothSolidImage | post-processing/imageProcessing.js:140-162 | smoothing a single-coloured texture returns that colour at every texel, under either wrap mode |
| Texture.HalfBlueOverRed | post-processing/imageProcessing.js:133-138 | blue at alpha 0.5 blended over opaque red gives (0.5, 0, 0.5, 1) at every texel |

## Left out

- WebGL plumbing is not modelled: context, shader compilation, buffers, the vertex shader, `drawScene`/`drawSquare` drawing, the model matrix and its 2x scale, `pushMatrix`/`popMatrix`/`degToRad`. These are I/O to the GPU.
- Texture upload is not modelled: `initTextures`, `handleTextureLoaded`, the vertical flip, mipmaps, and LINEAR filtering between texels. Samplers are read at texel centres. `Texture` indexes rows bottom-up to stand for the flip.
- Images of another size than the canvas are not modelled. The shader steps neighbour reads by one canvas pixel: `uResolution` is `[1/canvas.width, 1/canvas.height]` (imageProcessing.js:623, used at lines 156, 180, 204 and 214-217). That step is one texel only when the image is as large as the canvas. `Texture.NeighbourhoodAt` and `Texture.WrappedNeighbourhoodAt` model that equal-size case. For other sizes the reads form a stretched neighbourhood blended by LINEAR filtering. A `Sampler` takes the integer step `(i, j)` in units of `uResolution`, which is one texel in the equal-size case modelled, so the texture-coordinate arithmetic is folded into it.
- Image loading (`loadBackgroundImage`, `loadForegroundImage`, `FileReader`), `save()` and `reset()` interact with the browser and are not modelled.
- `drawScene()`: each handler method models a handler without its final `drawScene()`. Rendering is `Shader.Main` applied per fragment.
- Gradient.Sqrt: where no real root is known, it returns 0. GLSL's `sqrt` is undefined for negative arguments, and the argument here is never negative.
- Shader.Main: it is the shader's output before the framebuffer stores it. The 8-bit framebuffer clamps each channel to [0, 1] and quantises it, and that clamped value is what is shown and what `save()` exports. Sharpen and the Laplacian can go below 0, and a brightness above 1 can push channels above 1; `Main` returns those unclamped values.
- All arithmetic is over the reals. `mediump` float precision and rounding, and the 8-bit RGBA texture storage, are not modelled.
- `parseFloat` of the slider strings is not modelled. `OnContrast` and `ContrastFilter` take the parsed numbers, so a NaN from a non-numeric value cannot arise.
- Transforms.Sepia: its contract states only the alpha. The rgb values are fixed by the three column lemmas `SepiaOfRed`, `SepiaOfGreen` and `SepiaOfBlue` together with `SepiaLinear`, and are not repeated in the contract.
