# NAO inverse-geometric-model state, in Dafny

This project models the bookkeeping core of the `nao_igm` class
(`nao_model/igm.cpp`). The class keeps the kinematic state of a NAO humanoid:

- a flat configuration vector `q` of 36 entries: the 24 body joints at 0..23,
  the support-foot position at 24..26 and the column-major 3x3 support-foot
  orientation at 27..35;
- per-joint lower and upper limits, and a first-violation scan over them;
- which foot supports the robot, plus three caches derived from `q` by that
  foot's kinematic-chain solvers: the swing-foot pose, the torso orientation
  and the center of mass;
- the fixed index shuffles between 4x4 homogeneous poses and 3x3 rotations
  (`T2Rot`, `rpy2R`, `rpy2R_hom`, `initPosture`).

The model has three modules:

- `Layout` (`layout.dfy`) holds the index layout of `q`, the joint-limit and
  standard-posture tables, and `Anchored`, the specification of re-anchoring
  `q` at a new support-foot position and orientation.
- `Transforms` (`transforms.dfy`) holds the pose and rotation helpers. Each is
  a method over `array<real>` that writes the entries in the order the C++
  does, and each is proved against a sequence function: `RotationOf`,
  `WithRotation`, `WithTranslation`, `RpyRotation`. The closed-form
  roll-pitch-yaw matrix is in turn proved equal to `IntrinsicXYZ`, the
  product of the three elementary rotations about x, the new y and the new z.
- `Igm` (`igm.dfy`) holds the class `NaoIgm`. Its fields are the arrays of the
  C++ class, and its methods carry `modifies` clauses. `Refreshed()` states
  that the caches agree with the current support foot's solvers. `Init`,
  `Refresh` and `SwitchSupportFoot` establish it.

The kinematic-chain solvers (`LLeg2RLeg`, `RLeg2LLeg`, `LLeg2Torso`,
`RLeg2Torso`, `LLeg2CoM`, `RLeg2CoM`) and `Euler2Rot` are defined in
`maple_functions.h`, which is not part of this model. They become the
`Kinematics` record of total functions with fixed-length results, given to
the constructor. Sine and cosine become the `Trig` record.

Two switches in a row restore the configuration only if the solvers agree
with one another. That hypothesis is written out as `FrameConsistent`, and
`DoubleSwitchRestores` and `SwitchTwice` carry it explicitly.

## Model

| member | source | states |
|---|---|---|
| Layout.Anchored | nao_model/igm.cpp:297-309 | re-anchoring yields a 36-entry configuration: body joints 0..23 kept, entries 24..26 the given position, 27..35 the given orientation |
| Layout.AnchoredAtOwnAnchor | nao_model/igm.cpp:297-309 | copying q's own support-foot region back into q changes nothing |
| Layout.AnchoredTwice | nao_model/igm.cpp:113-125 | a second re-anchoring fully overrides the first: only the last anchor survives |
| Layout.DefaultPostureWithinBounds | nao_model/igm.cpp:13-52 | the standard initial posture set by the constructor lies inside the limits of every one of the 24 joints |
| Transforms.TranslationOf | nao_model/igm.cpp:351 | the translation of a pose is its entries 12, 13, 14 |
| Transforms.WithTranslation | nao_model/igm.cpp:183-185 | writing a position sets the translation to its first three entries and keeps every other entry of the pose |
| Transforms.RotationOfEntry | nao_model/igm.cpp:430-441 | for r, c in 0..2, entry 3c+r of the extracted rotation is entry 4c+r of the pose |
| Transforms.RotationOfIgnoresOutside | nao_model/igm.cpp:430-441 | the extracted rotation depends only on the rotation block: translation and bottom row are never read |
| Transforms.WithRotationEntry | nao_model/igm.cpp:498-500 | for r, c in 0..2, the 4x4 fill puts at 4c+r the value the 3x3 form has at 3c+r |
| Transforms.WithRotationKeeps | nao_model/igm.cpp:487-501 | filling the rotation block leaves entries 3, 7, 11, 15 and the translation as they were |
| Transforms.RotationOfWithRotation | nao_model/igm.cpp:457-501 | extracting the rotation from a pose whose block was just filled gives back exactly the 3x3 rotation |
| Transforms.WithRotationOfSelf | nao_model/igm.cpp:430-441 | writing a pose's own extracted rotation back into it leaves the pose unchanged |
| Transforms.TranslationAndRotationIndependent | nao_model/igm.cpp:183-188 | setting the translation does not change the rotation, and filling the rotation does not change the translation |
| Transforms.T2Rot | nao_model/igm.cpp:430-441 | after the nine writes, the output array holds the rotation block of the pose |
| Transforms.RpyMatrixIsIntrinsicXYZ | nao_model/igm.cpp:444-471 | the closed-form matrix rpy2R writes is, for all sines and cosines, the column-major product Rx(roll) * Ry(pitch) * Rz(yaw): roll about x, then pitch about the new y, then yaw about the new z |
| Transforms.ComputeRpy | nao_model/igm.cpp:459-470 | the matrix formed from the sines and cosines of the three angles is the product of the rotations about x, the new y and the new z |
| Transforms.Rpy2R | nao_model/igm.cpp:444-471 | after the nine writes, the output array is the column-major x, y', z'' rotation product of roll, pitch and yaw |
| Transforms.PlaceRotation | nao_model/igm.cpp:498-500 | the nine writes place the rotation in the rotation block and leave the other seven entries of the pose unchanged |
| Transforms.Rpy2RHom | nao_model/igm.cpp:474-501 | the pose's rotation block becomes the same matrix rpy2R writes, and reading it back gives the x, y', z'' rotation product; the other seven entries are kept |
| Transforms.InitPosture | nao_model/igm.cpp:176-189 | the pose gets the position as translation and the roll-pitch-yaw rotation as rotation block |
| Transforms.InitPostureParts | nao_model/igm.cpp:176-189 | the pose initPosture builds has translation equal to the position, rotation equal to the one rpy2R builds, and an untouched bottom row |
| Igm.Other | nao_model/igm.cpp:335-345 | a switch always names the foot that is not the current one |
| Igm.Switched | nao_model/igm.cpp:347-361 | the re-anchored configuration keeps the body joints and takes the translation and rotation of the swing-foot pose |
| Igm.DoubleSwitchRestores | nao_model/igm.cpp:333-378 | with mutually consistent solvers, two switches return the original support foot and the original configuration |
| Igm.NaoIgm.constructor | nao_model/igm.cpp:13-52 | the limit tables hold the 24 mechanical ranges, and the body joints hold the standard initial posture |
| Igm.NaoIgm.SetBounds | nao_model/igm.cpp:63-67 | only entry id of each limit table changes; q and the other entries are untouched |
| Igm.NaoIgm.CheckJointBounds | nao_model/igm.cpp:79-89 | returns -1 exactly when all 24 body joints are inside their limits; otherwise the index of a violating joint such that all earlier joints are inside; state is only read |
| Igm.NaoIgm.SetBasePose | nao_model/igm.cpp:102-126 | q is re-anchored at (x, y, z) and the Euler rotation; body joints and support foot unchanged |
| Igm.NaoIgm.SetCoM | nao_model/igm.cpp:199-204 | the cached center of mass becomes (x, y, z) |
| Igm.NaoIgm.GetUpdatedCoM | nao_model/igm.cpp:212-226 | the cached and returned center of mass are the current support foot's CoM solver applied to q; q and the support foot are unchanged |
| Igm.NaoIgm.GetUpdatedSwingFoot | nao_model/igm.cpp:235-249 | the cached swing pose is the current support foot's swing solver applied to q; the result is its translation |
| Igm.NaoIgm.Refresh | nao_model/igm.cpp:313-326 | all three caches agree with the current support foot's solvers applied to q |
| Igm.NaoIgm.Init | nao_model/igm.cpp:292-327 | q is re-anchored at the given position and orientation, the support foot is set, and all caches agree with its solvers |
| Igm.NaoIgm.SwitchSupportFoot | nao_model/igm.cpp:333-378 | the support foot flips; q is re-anchored at the pre-call cached swing pose; the caches agree with the new foot's solvers |
| Igm.NaoIgm.InitJointAngles | nao_model/igm.cpp:386-421 | body joints get the standard posture; entries 24..35 are untouched |
| Igm.SwitchTwice | nao_model/igm.cpp:333-378 | from a refreshed state with consistent solvers, two switches restore the support foot and q, and leave the caches refreshed |

## Left out

- `PostureOffset` and `RotationOffset` are not modelled. They are Eigen matrix products of an `Euler2T`/`Euler2Rot` result, which is floating-point linear algebra in a library that is not part of this model.
- The bodies of the chain solvers and of `Euler2Rot` are not modelled. `maple_functions.h` is not part of this model, so they are abstract functions with fixed-length results only.
- The values of sine and cosine are not modelled. They are parameters, and nothing about orthonormality of the rotations is claimed.
- `double` semantics are not modelled: `real` stands in for it, so NaN comparisons in the bounds scan are not modelled.
- `nao_igm.h` is not part of this model. The sizes (support-foot position at 24, orientation at 27, 36 entries in total) follow from the hard-coded indices in `igm.cpp`. The values of the joint-id enumeration do not appear in `igm.cpp` at all: the model assumes that the joints are numbered 0..23 in the order of the constructor's `setBounds` calls. That assumption decides which index `CheckJointBounds` reports for a joint and which slot of each table a named joint uses.
- The output buffers of `getUpdatedCoM` and `getUpdatedSwingFoot` are returned as sequences, so aliasing between a caller's buffer and the class's own arrays is not modelled. `init` likewise takes its position and orientation as sequences, and `initPosture` its position, so aliasing between that position and the pose being written is not modelled either.
- Igm.NaoIgm.constructor: the C++ leaves `support_foot`, q[24..35] and the caches uninitialised. The model gives them fixed values and promises nothing about them.
- Igm.NaoIgm.constructor: the 24 `setBounds` calls with literal limits are modelled as one loop over the limit tables. The order of the calls and their values are the same.
- Igm.NaoIgm.SwitchSupportFoot: the source's nested second test for RIGHT is simplified to a plain else. The support foot has only two values, so the behaviour is identical.
- Igm.DoubleSwitchRestores: this holds only under `FrameConsistent`, which the solvers are not proved to satisfy.
