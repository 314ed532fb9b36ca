# Verified models of the flight firmware

This project models the parts of an STM32F4 flight firmware, and of the FreeRTOS V9 kernel under it, whose
correctness spans many calls, tasks or interrupts, and proves what they keep. Each part comes twice: as the code is
written (classes whose methods rewrite arrays, lists and fields in place, with their loops) and as functions on
values that say what a call does. The methods are proved equal to the functions, and the properties of whole runs
are lemmas about the functions.

* **Estimators** (`LinAlg`, `EkfOf`, `Ekf9`): two Kalman filters in hand-expanded loops. Their covariances stay
  symmetric positive semidefinite in every run, through gates, lockout releases, resets and freezes, each update is
  the Kalman update and each prediction follows the craft.
* **Smith predictor** (`XyCtrl`): the d-tick matrices built in place and the circular pipe of commands in flight
  compute what stepping the one-tick plant d times would.
* **Kernel containers and protocols** (`ListSeq`, `KernelList`, `QueueModel`, `Queue`, `QueueProtocol`,
  `EventGroups`, `EventBoard`, `CoRoutines`): the intrusive ring, the byte-ring queue and its blocking protocol with
  interrupts, event groups and what they mean to the tasks, and delayed lists across tick wrap.
* **USART3 transmit ring** (`Usart3`): a producer that copies outside its critical sections while the DMA drains.
* **Workflow-B guidance** (`Reals`, `WfbTypes`, `WfbRamp`, `WfbPlan`, `WfbAccel`, `WfbProg`, `WfbLimits`, `WfbTraj`,
  `WfbPrim`, `WfbSafety`, `WfbGlue`, `WfbFlight`): planner, programs, trajectories, flight sequencer, safety net, the
  glue that owns them all, and what is flown and asked for over whole flights.
* **Telemetry** (`Subscribe`, `StreamWire`, `Crc`, `Crc32`, `Gf2`, `CrcPolynomial`): admission under link budgets and
  what then goes on the link, the cadence of the slots, the frames as the host sees them, and the checksums: what they
  are certain to detect, and the remainders they are.

Modelling decisions. Floats are exact reals; `sqrtf` is a function assumed to be the non-negative root. Fixed-width
integers wrap where the code lets them (lock counts, tick counts, counters, CRC registers). Interrupts and DMA are
extra steps that may run between critical sections. Memory, clocks, estimates and the effects of `tasks.c` come in
as parameters or follow their documented effect.

Where the code falls short of what it is for, an input or run that shows it and the exact condition are proved:

* `QueueProtocol.LockPaysUpTo127`, `WrapStrandsReceiver`: the int8 lock count wraps at the 128th interrupt post under
  one lock, and the unlock then wakes nobody. The no-lost-wakeup theorem assumes counts below 127 before each post.
* `QueueProtocol.ResetCovers`, `ResetStrandsSender`: a reset lets only one waiting sender go.
* `Queue.Queue.Send`, `SendFromISR`: overwriting a full queue of zero-size items raises the count past the length.
* `WfbPlan.SmoothIffPace`, `CreepJumps`: with so little acceleration that v/2^30 already does not fit, a segment from
  rest to rest is accepted with no cruise speed and jumps over its length.
* `WfbProg.ProgramSpeed`, `NudgeJumps`: a LINE under a millimetre snaps, and so does a LINE planned with no cruise
  speed; a program with one breaks v_max unless the same instant leads back.
* `WfbFlight.BeginsAtHover`, `TrajBeginsNearHover`, `RaisedHoverDrops`: a program or trajectory is checked from the
  hover height at its COMMIT, and START does not notice that SET_HOVER_Z has changed it since.

## Model

| member | source | states |
|---|---|---|
| LinAlg.CauchySchwarz | API/ekf_of.c:226-237 | for a semidefinite P, (u'Pv)^2 <= (u'Pu)(v'Pv): the inequality that makes dividing by the innovation variance safe |
| LinAlg.CongruenceCovariance | API/ekf_of.c:113-182 | F P F' of a covariance is a covariance, for any F |
| LinAlg.DiagonalCovariance | API/ekf_of.c:160-175 | adding non-negative process noise on the diagonal keeps a covariance |
| LinAlg.MeasurementCovariance | API/ekf_of.c:225-237 | P - gg'/S with g = Ph and S >= h'Ph is again symmetric positive semidefinite |
| LinAlg.NoiseCovariance | API/ekf.c:97-126 | adding c gg' with c >= 0 keeps a covariance (the noise term of the Joseph form) |
| LinAlg.ResetCovariance | API/ekf_of.c:241-249 | clearing row and column l and putting p0 >= 0 on the diagonal keeps a covariance |
| EkfOf.PredictKeepsCovariance | API/ekf_of.c:113-182 | a prediction over dt >= 0 keeps one axis's 4x4 block symmetric positive semidefinite |
| EkfOf.UpdateKeepsCovariance | API/ekf_of.c:189-238 | any scalar measurement with R >= 0, also when the variance floor is hit, keeps the block a covariance |
| EkfOf.ReleaseKeepsCovariance | API/ekf_of.c:241-249 | a gate-lockout release keeps the block a covariance |
| EkfOf.NextSound | API/ekf_of.c:48-340 | every public call, in its real branches, keeps both blocks covariances and both reject-run counters below the release count |
| EkfOf.RunSound | API/ekf_of.c:48-340 | for every order of Init, Predict, Update, UpdateRaw, UpdatePos, UpdateZeroVel, ResetBias and ResetPos both blocks stay symmetric positive semidefinite |
| EkfOf.UpdateShrinksVariance | API/ekf_of.c:225-237 | a measurement never widens any state's variance |
| EkfOf.UpdateMoves | API/ekf_of.c:189-238 | a measurement moves each state by P+ h (z - h'x) / R, read off the new covariance: for a symmetric P and an innovation variance above the floor |
| EkfOf.UpdateClosesIn | API/ekf_of.c:189-238 | any measurement with R >= 0, the floor included, brings h'x nearer to z and never past it |
| EkfOf.UpdateIsBest | API/ekf_of.c:189-238 | no other linear gain leaves less variance in any direction than P+, and the gain applied to the state leaves exactly P+: the update is the Kalman update |
| EkfOf.PredictFollows | API/ekf_of.c:113-182 | for a craft that accelerates at a, read with the accelerometer's bias, the error of the estimate after a prediction is F times the error before, F being the matrix that carries the covariance |
| EkfOf.PredictDrifts | API/ekf_of.c:160-175 | a prediction adds exactly its noise: the bias variances grow by q dt, the velocity's by what the accelerometer bias carries in and q dt |
| EkfOf.KeptOutIff | API/ekf_of.c:189-279 | a flow sample or fix is kept out if and only if it lies more than its gate of standard deviations off and fewer than four in a row did before it |
| EkfOf.MeasurementTaken | API/ekf_of.c:189-315 | every measuring call, each axis with its own reading and noise: the reading is kept out, exactly as an outlier of its gate or raw flow without a variance, and the estimate stays; or it is taken in: nearer to it and not past it, each state moved by P+ h y / R |
| EkfOf.OthersFollow | API/ekf_of.c:113-341 | a predict carries each axis as the craft moves under its own acceleration; ResetPos moves the origin to the craft and ResetBias clears the flow bias, and nothing else |
| EkfOf.GateLockoutEnds | API/ekf_of.c:241-288 | in any run without a new Init, whatever is called in between: of any five flow samples one enters the estimate of each axis, directly or after its velocity variance was re-opened, and of any five camera fixes one does, likewise for position |
| EkfOf.OneMoreRejected | API/ekf_of.c:48-340 | a gated flow sample or fix lengthens its own run of rejections, short of the release count; no other call touches either run |
| EkfOf.OfFilter.UpdateOne | API/ekf_of.c:189-238 | the two in-place loops over the flat arrays compute exactly the scalar Kalman posterior, or change nothing when gated |
| EkfOf.OfFilter.Downdate | API/ekf_of.c:231-236 | the upper-triangle loop with its mirror writes leaves P - gg'/S in every entry of the axis's block and nothing else |
| EkfOf.OfFilter.Release | API/ekf_of.c:241-249 | in place: row and column l cleared, p0 on the diagonal, the other axis untouched |
| EkfOf.OfFilter.UpdateAxis | API/ekf_of.c:252-264 | one axis of the flow update, including lockout release and the re-applied sample, equals OfAxis of the old axis |
| EkfOf.OfFilter.UpdatePosAxis | API/ekf_of.c:267-279 | one axis of a camera fix equals PosAxis of the old axis and reports gating |
| EkfOf.OfFilter.PredictAxis | API/ekf_of.c:113-182 | the triple loops FP and FPF' with process noise equal the value-level prediction of that axis |
| EkfOf.OfFilter.Init | API/ekf_of.c:48-104 | the state after Init is the specified initial filter |
| EkfOf.OfFilter.Predict | API/ekf_of.c:113-182 | both axes predicted; new state is Next of the old one |
| EkfOf.OfFilter.Update | API/ekf_of.c:290-295 | both axes updated from flow; new state is Next of the old one |
| EkfOf.OfFilter.UpdateRaw | API/ekf_of.c:297-303 | switched off by a non-positive R, otherwise both velocities updated; new state is Next of the old one |
| EkfOf.OfFilter.UpdatePos | API/ekf_of.c:281-288 | both positions updated; the mask names exactly the gated axes |
| EkfOf.OfFilter.UpdateZeroVel | API/ekf_of.c:305-311 | both velocities updated towards zero, ungated |
| EkfOf.OfFilter.ResetBias | API/ekf_of.c:317-333 | flow biases zeroed with the given variance and no cross terms |
| EkfOf.OfFilter.ResetPos | API/ekf_of.c:335-340 | positions zeroed, covariance untouched |
| Ekf9.JosephCovariance | API/ekf.c:97-126 | the two-pass Joseph update keeps the 9x9 covariance symmetric positive semidefinite for any gain, as long as R >= 0 |
| Ekf9.JosephEntryIsCongruence | API/ekf.c:97-126 | each entry of the two passes is the corresponding entry of (I-KH)P(I-KH)' |
| Ekf9.JosephNoise | API/ekf.c:97-126 | the passes' noise terms are R times the outer products of the gain columns |
| Ekf9.PredictCovariance | API/ekf.c:184-241 | the expanded prediction keeps a covariance for dt >= 0 |
| Ekf9.PredictEntryIsCongruence | API/ekf.c:184-241 | each expanded entry of the prediction is the entry of F P F' |
| Ekf9.InnovationInvertible | API/ekf.c:63-73 | for a covariance and R > 0 the 2x2 innovation has positive determinant, so the singular return is never taken |
| Ekf9.GainSolves | API/ekf.c:75-90 | the gain solves K S = P H' |
| Ekf9.UpdateMoves | API/ekf.c:58-127 | two measurements move each state by P+ H' y / R, read off the new covariance |
| Ekf9.UpdateClosesIn | API/ekf.c:58-127 | for a covariance and R > 0 the residuals after the two-measurement update are together no longer than before |
| Ekf9.RateMoves | API/ekf.c:279-327 | the vertical rate moves each state by P+ h y / R |
| Ekf9.RateClosesIn | API/ekf.c:279-327 | it brings the estimate nearer to the measurement and never past it |
| Ekf9.MeasurementTaken | API/ekf.c:243-327 | every measuring call: each reading is compared with its own velocity and weighed with its own noise, each state moves by P+ H'y / R and the residuals get no longer; inactive, nothing moves |
| Ekf9.PredictFollows | API/ekf.c:184-241 | for a craft that accelerates at a, each reading off by its bias, the error of the estimate after a prediction is F times the error before |
| Ekf9.PredictDrifts | API/ekf.c:184-241 | what a prediction does to the variances: a velocity is carried by its bias and by accelerometer noise held for dt, a bias only drifts |
| Ekf9.UpdateKeepsIsolated | API/ekf.c:249-327 | no measurement moves an uncorrelated bias, its row, its column or its variance |
| Ekf9.PredictKeepsIsolated | API/ekf.c:184-241 | prediction keeps a bias uncorrelated and adds exactly its process noise |
| Ekf9.NextKeepsGyro | API/ekf.c:146-351 | every call keeps the gyro biases at their initial value and uncorrelated |
| Ekf9.NextKeepsFrozen | API/ekf.c:184-351 | while frozen no predict or update changes the six bias states, their rows, columns or variances |
| Ekf9.FreezeFreezes | API/ekf.c:340-351 | SetBiasFrozen(1) establishes the frozen condition from any state |
| Ekf9.NextSound | API/ekf.c:146-351 | every call keeps the covariance and the non-negative noises |
| Ekf9.RunSound | API/ekf.c:146-351 | in every run from Init the 9x9 covariance stays symmetric positive semidefinite and the gyro biases never move |
| Ekf9.GateStepKeepsFlag | API/ekf.c:368-393 | the gate's freeze flag never claims a freeze that is not in force |
| Ekf9.HealthIff | API/ekf.c:346-393 | after a gate step the filter is healthy if and only if it was, or is reinitialised on the ground, and is active with velocities and variances within limits; losing health is counted once |
| Ekf9.FlightKeepsBiases | API/ekf.c:368-393 | in a mode that freezes in flight, a whole flight of predicts, updates and gate steps leaves all six biases where the freeze found them |
| Ekf9.Filter9.Update2x2 | API/ekf.c:58-127 | gain, state correction and both in-place passes equal the value-level two-measurement update |
| Ekf9.Filter9.JosephPasses | API/ekf.c:97-126 | the two in-place passes leave exactly the Joseph form in every entry |
| Ekf9.Filter9.Predict | API/ekf.c:184-241 | the expanded in-place loops leave F P F' + Q dt and the driven velocities |
| Ekf9.Filter9.UpdateOf | API/ekf.c:249-264 | flow update: new state is Next of the old one |
| Ekf9.Filter9.UpdateAccXY | API/ekf.c:266-277 | accelerometer update: new state is Next of the old one |
| Ekf9.Filter9.UpdateZRate | API/ekf.c:279-327 | vertical-rate update with its own two passes: new state is Next of the old one |
| Ekf9.Filter9.SetBiasFrozen | API/ekf.c:340-351 | the row-and-column loop leaves exactly the biases' blocks cleared and their variances and noise set |
| Ekf9.Filter9.GateStepOn | API/ekf.c:368-393 | requests on the ground only, freeze on change, health latched off: filter and gate record equal GateStep of the old pair |
| Ekf9.Filter9.CheckHealthy | API/ekf.c:353-366 | healthy exactly when velocities and horizontal variances are within limits |
| XyCtrl.PredictionIsDrive | API/xy_ctrl.c:38-108 | phi x0 + sum gam[j] u_j equals stepping the one-tick plant d times over the d commands, for every d and every command sequence |
| XyCtrl.ForecastIsFuture | API/xy_ctrl.c:93-108 | from the lag estimate of the past commands and the commands in flight, the predicted state is the plant's state d ticks on |
| XyCtrl.HistoryStep | API/xy_ctrl.c:191-197 | committing a command moves exactly the oldest command in flight into the past |
| XyCtrl.Predictor.SetDelay | API/xy_ctrl.c:38-70 | the nested loops that build the matrices in place leave the d-tick response for the clamped delay |
| XyCtrl.Predictor.Extend | API/xy_ctrl.c:52-68 | one pass turns the j-tick matrices into the (j+1)-tick matrices |
| XyCtrl.State.Reset | API/xy_ctrl.c:152-157 | an empty pipe, in either order with a change of the delay, and matrices for the default delay if none were built |
| XyCtrl.State.FreshFits | API/xy_ctrl.c:152-157 | a reset state is sound for every delay: the delay may be set before the reset or after it |
| XyCtrl.State.Repiped | API/xy_ctrl.c:38-108 | changing the delay without a reset: a longer one puts the slots beyond the old delay in between the commands in flight, a shorter one drops commands out of their middle, or keeps the newest if the head lies beyond it |
| XyCtrl.State.LongerMisleads | API/xy_ctrl.c:38-108 | why the header asks for the reset: with a longer delay set on a live state, the predictor no longer runs over the last commands sent |
| XyCtrl.State.Commit | API/xy_ctrl.c:191-197 | the pipe is always the last d applied commands, oldest first; the oldest reaches the lag estimate |
| XyCtrl.State.PredictedError | API/xy_ctrl.c:93-108 | the loops compute the plant driven over the pipe, relative to the target |
| ListSeq.SortedInsert | FreeRTOS/list.c:145-210 | inserting behind all values at most v keeps ascending order and puts v after its equals |
| KernelList.List.constructor | FreeRTOS/list.c:79-102 | an initialised list is an empty ring whose index is the end marker |
| KernelList.List.Insert | FreeRTOS/list.c:145-210 | on the pointer ring: the values become the sorted insertion of the item's value, behind equals; links, owners and count stay consistent |
| KernelList.List.FindPlace | FreeRTOS/list.c:164-199 | the search loop ends, also for portMAX_DELAY, at the node after which the value belongs |
| KernelList.List.InsertEnd | FreeRTOS/list.c:116-142 | the item becomes last in the rotation that starts at pxIndex |
| KernelList.List.Remove | FreeRTOS/list.c:212-238 | uxListRemove from the item alone: it leaves the list its container names, as RemoveOwn says |
| KernelList.List.RemoveOwn | FreeRTOS/list.c:212-238 | exactly that item leaves the ring, the rest keep their order, pxIndex stays valid, the count is returned |
| KernelList.List.LinksAfterInsert | FreeRTOS/list.c:131-141 | four pointer writes turn the links of a ring into the links of the ring with one more node |
| KernelList.List.LinksAfterRemove | FreeRTOS/list.c:218-219 | two pointer writes turn the links of a ring into the links of the ring with one node less |
| QueueModel.PlaceKeepsOrder | FreeRTOS/queue.c:882-882 | a task placed on an event list keeps it in urgency order, behind equals |
| QueueModel.Fifo | FreeRTOS/queue.c:1697-1791 | over any sends to the back, from tasks or interrupts, receives and peeks: items delivered followed by items waiting are the accepted items in order |
| QueueModel.NothingLost | FreeRTOS/queue.c:1697-1791 | with sends to the front too, every accepted item is delivered or waiting exactly once, never more than the length |
| QueueModel.RefusedIff | FreeRTOS/queue.c:723-1791 | in every run a send is accepted exactly while fewer than length items are out, a receive delivers exactly while one is |
| QueueModel.FrontFirst | FreeRTOS/queue.c:1736-1768 | an item sent to the front is delivered next, before all that waited and all that is sent to the back since; those keep their order |
| QueueModel.Mailbox | FreeRTOS/queue.c:1749-1771 | a length-one queue under xQueueOverwrite holds the last accepted item or nothing |
| Queue.BackAppends | FreeRTOS/queue.c:1723-1734 | writing the slot behind the last item appends to the ring's contents, for every length and item size |
| Queue.FrontPrepends | FreeRTOS/queue.c:1736-1768 | writing the read slot and stepping it back puts the item in front |
| Queue.Queue.constructor | FreeRTOS/queue.c:432-467 | a new queue is empty and unlocked with nobody waiting |
| Queue.Queue.CopyIn | FreeRTOS/queue.c:1697-1774 | pointer moves and copy loop: back appends, front prepends, overwrite replaces the only item |
| Queue.Queue.CopyOut | FreeRTOS/queue.c:1776-1791 | the read pointer steps with wrap and exactly the head item's bytes reach the buffer |
| Queue.Queue.Send | FreeRTOS/queue.c:745-800 | the send critical section equals SendCritical on the ring's view; a zero-size item under overwrite is counted up even when full |
| Queue.Queue.SendFromISR | FreeRTOS/queue.c:958-1063 | equals SendFromIsr: the event list is touched only while unlocked, otherwise the int8 lock count grows; a zero-size item under overwrite is counted up even when full |
| Queue.Queue.Receive | FreeRTOS/queue.c:1257-1345 | receive pops the head, peek changes no item and wakes the next receiver |
| Queue.Queue.ReceiveFromISR | FreeRTOS/queue.c:1463-1519 | equals ReceiveFromIsr, the head's bytes delivered |
| Queue.Queue.LockBoth | FreeRTOS/queue.c:264-276 | prvLockQueue on the view |
| Queue.Queue.UnlockPosts | FreeRTOS/queue.c:1794-1876 | the loop wakes one receiver a post, most urgent first, until either runs out |
| Queue.Queue.UnlockTakes | FreeRTOS/queue.c:1878-1911 | the mirror loop for senders |
| Queue.Queue.GenericReset | FreeRTOS/queue.c:279-330 | empty, unlocked, one sender let go |
| QueueProtocol.NextKeeps | FreeRTOS/queue.c:279-1431 | each atomic step of any task or interrupt, reset included, keeps lists, woken tasks, lock ownership and the receivers' coverage; it keeps the senders' coverage unless it is a reset that is not gentle |
| QueueProtocol.ResetCovers | FreeRTOS/queue.c:279-330 | a reset of a live queue keeps the invariant and the receivers' coverage in every state, and leaves the senders covered if and only if at most one waits or the length is at most one more than the senders already woken |
| QueueProtocol.ResetStrandsSender | FreeRTOS/queue.c:279-330 | a run of the protocol that ends with a sender asleep beside free room and nobody else about: two block on a full queue, a reset lets the first go, and the first sends |
| QueueProtocol.RunKeeps | FreeRTOS/queue.c:279-1431 | so does every interleaving, as long as no lock count leaves int8 |
| QueueProtocol.NoLostWakeup | FreeRTOS/queue.c:279-1911 | in every interleaving, resets included: unlocked, no receiver stays on its list while more is to be had than the receivers already woken and not yet run; locked, the lock count carries the difference; the same for senders when every reset was gentle |
| QueueProtocol.RunOrdered | FreeRTOS/queue.c:723-1431 | both event lists stay in urgency order in every run, so the woken task is one of the most urgent |
| QueueProtocol.WokenUrgent | FreeRTOS/queue.c:723-1431 | whoever any step takes off an event list is no less urgent than everybody it leaves there |
| QueueProtocol.LockPaysUpTo127 | FreeRTOS/queue.c:1051-1056 | any interrupt posts to a locked queue, refused ones and overwrites among them: as many receivers are woken by the end of the unlock as posts were accepted, up to all, if and only if n <= 127 were, or nobody waits, or n >= 256 and at most n - 255 wait |
| QueueProtocol.BurstRuns | FreeRTOS/queue.c:958-1063 | interrupts posting one after the other are a run of the protocol |
| QueueProtocol.WrapStrandsReceiver | FreeRTOS/queue.c:1794-1876 | a run of the protocol with 128 posts under one lock that ends unlocked, with a receiver asleep beside 127 items and nobody else about |
| Usart3.ArmKeeps | BSP/usart3.c:226-253 | arming restores 'an idle DMA means an empty ring' whatever the ring holds |
| Usart3.CopyKeeps | BSP/usart3.c:304-308 | a byte copied outside the critical sections changes no pending byte |
| Usart3.CompleteKeeps | BSP/usart3.c:255-269 | the interrupt advances the tail by exactly the bytes sent and re-arms |
| Usart3.NextKeeps | BSP/usart3.c:212-326 | every step of producer, DMA hardware or interrupt, in any order, keeps the ring invariant |
| Usart3.RefusedIff | BSP/usart3.c:283-301 | the test on the indices refuses a frame exactly if it is empty or, with the accepted bytes the DMA has not finished with, comes to the ring's length or more |
| Usart3.WireIsPrefix | BSP/usart3.c:212-326 | in every interleaving the bytes on the line are a prefix of the accepted frames end to end, a frame that comes between sends is among them if and only if it fits at that moment, and an idle DMA between sends means all of it is out |
| Usart3.ThreeTransfersDrain | BSP/usart3.c:226-269 | left alone, the transfer in flight and at most two more put every accepted byte on the line |
| Usart3.Uart.TxArm | BSP/usart3.c:226-253 | the code's branches equal Arm: the contiguous run from tail, or nothing |
| Usart3.Uart.DmaIsr | BSP/usart3.c:255-269 | the handler equals the DmaComplete step |
| Usart3.Uart.TxSend | BSP/usart3.c:276-326 | under any interrupts between its critical sections the frame is accepted whole if and only if it is not empty and fits beside the accepted bytes the DMA has not finished with, and the call is a run of the step machine |
| Crc.Shift16Linear | API/subscribe.c:88-91 | one CRC-16 shift is linear over XOR |
| Crc.Shift16Kernel | API/subscribe.c:88-91 | only zero shifts to zero |
| Crc.RunInjective16 | API/subscribe.c:81-94 | two registers that differ still differ after any equal bytes |
| Crc.Crc16SeesTwoBytes | API/subscribe.c:81-94 | equal-length messages that differ only inside two adjacent bytes have different CRC16 values, and only then |
| Crc.TranspositionSeen | API/subscribe.c:720-724 | a transposition of adjacent bytes always changes the CRC16 and never the control plane's XOR |
| Crc.Xor8SeesOneByte | API/subscribe.c:60-68 | the control plane's XOR sees any change of one byte |
| CrcPolynomial.Crc16IsRemainder | API/subscribe.c:77-94 | the CRC-16 is the one remainder of degree under 16 of the message polynomial times x^16 by x^16 + x^12 + x^5 + 1 |
| CrcPolynomial.Crc32IsRemainder | API/wfb_traj.c:45-67 | the CRC-32, complemented, is the one remainder of degree under 32 of the message times x^32, its first 32 bits complemented, by the generator of RFC 1952 |
| Crc.FrameLeavesZero | API/subscribe.c:722-726 | a frame body followed by its CRC, high byte first, runs to zero |
| Crc.Crc16Ccitt | API/subscribe.c:81-94 | the two loops compute Crc16 |
| Crc32.RunAppend32 | API/wfb_prog.c:62-78 | updating piece by piece is updating by the whole |
| Crc32.SegmentsAreMessage | API/wfb_prog.c:607-609 | the per-segment CRC finished at COMMIT is the CRC-32 of all segments as one message |
| Crc32.Crc32SeesFourBytes | API/wfb_traj.c:45-67 | a change confined to four adjacent bytes, such as one float, is always seen |
| Crc32.CrcUpdate | API/wfb_prog.c:62-78 | the loops compute the register after the data |
| Crc32.WholeCrc | API/wfb_traj.c:45-67 | wfb_crc32 is Crc32Of |
| WfbRamp.RampRises | API/wfb_prog.c:84-115 | every ramp integral (TRAP, SCURVE with any jerk fraction, QUINTIC) goes from 0 to 1/2, never falls and never outruns time |
| WfbRamp.ScurveJoints | API/wfb_prog.c:100-111 | the three S-curve pieces meet |
| WfbRamp.QuintRises | API/wfb_prog.c:97-99 | the quintic ramp rises no faster than time |
| WfbPlan.RampTimeMono | API/wfb_prog.c:118-143 | a larger speed change never takes less time, across the S-curve's knee |
| WfbPlan.RampDistMono | API/wfb_prog.c:146-151 | a larger cruise speed never needs less ground for its ramps |
| WfbPlan.PathMoves | API/wfb_prog.c:154-215 | for every accepted segment with vc > 0 the path variable starts at 0, reaches len at dur, never decreases and never moves faster than vc between any two times |
| WfbPlan.SmoothIffPace | API/wfb_prog.c:154-215 | from the request alone: the planned path never jumps, runs back or exceeds v if and only if a speed is asked for at an end or the ramps of v/2^30 fit the length |
| WfbPlan.CreepJumps | API/wfb_prog.c:154-190 | an accepted request that is not smooth: a millimetre from rest to rest with an acceleration of 1e-16 |
| WfbPlan.SmoothIffSpeed | API/wfb_prog.c:154-215 | the planned path never jumps, runs back or exceeds v if and only if the cruise speed is positive |
| WfbPlan.CruiseIsFastest | API/wfb_prog.c:164-181 | the bisected cruise speed fits, is fastest to one bisection interval, and is positive exactly when the request has pace |
| WfbPlan.NoSpeedJumps | API/wfb_prog.c:176-189 | with vc = 0 the segment takes no time and jumps over its whole length |
| WfbPlan.Segment.Bisect | API/wfb_prog.c:169-176 | the loop ends at the bisected speed: its ramps fit or it never left the start, and within v/2^30 above it they do not; from zero it stays zero exactly when v/2^30 already does not fit |
| WfbPlan.Segment.Plan | API/wfb_prog.c:154-190 | refused exactly when the ramps at max(v_in, v_out) exceed len by more than the slack; otherwise the cruise speed is the one determined by the request, fastest to one bisection interval, the stored times and distances belong to it, and the path is smooth exactly when the request has pace |
| WfbAccel.RampBounded | API/wfb_prog.c:84-152 | a unit ramp's integral covers between x and y what its speed does, and that speed rises by at most the profile's peak a unit: 1 for TRAP, 1/(1-rho) for SCURVE, 1.875 for QUINTIC |
| WfbAccel.PlanKeepsAccel | API/wfb_prog.c:84-215 | every planned segment with a cruise speed, across its joints: from v_in to v_out, over any time d its speed changes by at most a d and the ground covered is that at the speed it had, to within a d d; with ramps that fit the length the path variable is just that |
| WfbAccel.PlanKeepsJerk | API/wfb_prog.c:84-215 | every planned S-curve segment, at any time and across its joints: the change of speed over a time h and that over the next differ by at most j h h |
| WfbAccel.RampIsShortest | API/wfb_prog.c:118-145 | a planned ramp is the quickest there is: no other time, for an S-curve with no other share of jerk, keeps to the acceleration and jerk and is shorter |
| WfbLimits.AcceptedIff | API/wfb_prog.c:318-388 | a segment is accepted if and only if, in its fields: a HOLD is no longer than the longest program; a LINE ends in the box, is no faster, harder, jerkier or quicker in turning than allowed and its ramps fit its length; a TURN likewise; and one too short to plan is at rest, the LINE turning by at most half a degree |
| WfbLimits.FlownWithinCaps | API/wfb_prog.c:318-388 | an accepted LINE or TURN goes from v_in to v_out and changes its speed over any time d by at most the table's acceleration times d, an S-curved LINE its changes by at most the table's jerk times h h |
| WfbLimits.VelocityMeant | API/wfb_prog.c:264-293 | the velocities compared where segments meet are those flown: a LINE whose ramps fit moves in its first d seconds by d times the one at its start to within a d d on each axis, in its last by d times the one at its end to within twice that |
| WfbLimits.JointsGentle | API/wfb_prog.c:264-520 | nowhere in a program does the flown velocity step by more than vJumpMax: from rest into the first segment, across every joint, and at the end |
| WfbProg.Program.DeriveSeg | API/wfb_prog.c:318-388 | HOLD, LINE and TURN: the error is that of the first failing check or of the planner; an accepted segment is the rest, snap or planned motion its fields and start determine |
| WfbProg.TakesNoTime | API/wfb_prog.c:336-388 | an accepted segment takes no time exactly when its fields and start say so: a HOLD of 0 s, a length under a millimetre (a thousandth of a degree), or a request without pace |
| WfbProg.Program.Derive | API/wfb_prog.c:476-533 | the error is that of the first segment to fail its checks, the planner or the velocity step, then of the final velocity, the return to the hover point and the total time; there is none if and only if the program the fields stand for can be flown, and that program is what is stored |
| WfbProg.AcceptedIsFlyable | API/wfb_prog.c:476-533 | the verdict on an upload is none if and only if its segments chain from the hover point, each accepted and starting where and when the last ended, velocity steps within v_jump_max, ending at the hover point within tolerance, in at most t_max |
| WfbProg.ChainUnique | API/wfb_prog.c:476-533 | the uploaded fields and the hover height determine every segment of the program |
| WfbProg.BeginsThere | API/wfb_prog.c:220-262 | a program that takes time begins where its opening segments that take none have left it: at the target of the last LINE among them, else at the hover point |
| WfbProg.ProgramInBox | API/wfb_prog.c:476-495 | every sample of a program, before its start too, lies in the limit box if and only if its first pose does |
| WfbProg.HeadingReached | API/wfb_prog.c:318-388 | every accepted segment ends with the heading its fields ask for, a LINE its p3 and a TURN its p0, wrapped; a TURN left out was within a thousandth of a degree of it |
| WfbProg.TurnsShortWay | API/wfb_prog.c:220-262 | over a segment the heading goes to its end without turning back, by at most half a turn, at no more than the yaw rate of the table |
| WfbProg.ProgramHeading | API/wfb_prog.c:476-533 | every sample's heading lies between the one asked for before the segment flown and the one asked for after it, the short way round; at and past the end it is the last one asked for |
| WfbProg.SampleInBox | API/wfb_prog.c:220-262 | with the hover point in the box every sample of a LINE/TURN/HOLD program is in the box |
| WfbProg.ProgramSpeed | API/wfb_prog.c:476-533 | every accepted program: any two samples, across any number of segments, are at most v_max times the time between them apart, if and only if the segments that take no time lead, instant by instant, nowhere |
| WfbProg.UnhurriedIsSeamless | API/wfb_prog.c:336-366 | enough for that, from the uploaded fields: every LINE that takes no time ends where it starts |
| WfbProg.NudgeJumps | API/wfb_prog.c:350-357 | an accepted program that breaks the speed limit: HOLD for 1 s, then a LINE of half a millimetre |
| WfbProg.BackAndForth | API/wfb_prog.c:350-357 | an accepted program that keeps to the limit although one of its segments jumps: the next one jumps back at the same instant |
| WfbProg.FlownUnique | API/wfb_prog.c:729-734 | which segment is flown at t does not depend on how the cursor got there |
| WfbProg.Program.Commit | API/wfb_prog.c:623-649 | with the checksum matched: READY if and only if the program the fields stand for can be flown from the hover height, and that program is stored; otherwise the verdict, and EMPTY |
| WfbProg.Program.Start | API/wfb_prog.c:658-670 | READY to EXECUTING with the wrapped heading, or an error and no change |
| WfbProg.Program.Sample | API/wfb_prog.c:705-738 | forward or backward, NaN and infinities included, the sample is the program's pose at t with yaw in [-180, 180), at the end the last heading asked for turned by the heading at the start; past the end or at NaN it is DONE with the end pose |
| WfbTraj.Triangle | API/wfb_traj.c:258-273 | distances bounded by d and e add up to a distance bounded by d + e (from Lagrange's identity) |
| WfbTraj.PathInBox | API/wfb_traj.c:231-273 | after a successful commit every sample lies in the limit box and its yaw in [-180, 180] |
| WfbTraj.PathSpeed | API/wfb_traj.c:258-273 | after a successful commit any two samples are at most v_max times the time between them apart, across any number of segments |
| WfbTraj.PathThrough | API/wfb_traj.c:314-383 | at the time of each point the path is at that point, in place and heading |
| WfbTraj.PathFollows | API/wfb_traj.c:314-383 | between two points a share w of the time is that share of the straight way and of the turn by at most half a circle from one heading to the other |
| WfbTraj.AcceptedIff | API/wfb_traj.c:168-280 | an upload is accepted if and only if its times start at 0 and increase, its headings are within 180 degrees, and what is flown begins and ends near the hover point, stays in the box, and moves between any two times by at most v_max times the time |
| WfbTraj.HalvesCarry | API/wfb_traj.c:155-212 | every 32-bit checksum can be announced in two halves, and each in one way |
| WfbTraj.PathOn | API/wfb_traj.c:352-373 | strictly inside the flight the segment holding t determines the sample |
| WfbTraj.YawRange | API/wfb_traj.c:375-379 | the shorter-way yaw stays within +-180 degrees |
| WfbTraj.Traj.Begin | API/wfb_traj.c:85-110 | refused while executing or for a count outside 2..min(cap, 600); otherwise LOADING with nothing received |
| WfbTraj.Traj.Append | API/wfb_traj.c:112-153 | the rx-th float fills exactly field rx mod 5 of point rx / 5 |
| WfbTraj.Traj.SetCrcHi | API/wfb_traj.c:155-166 | integral 0..65535 only, while LOADING |
| WfbTraj.Traj.Commit | API/wfb_traj.c:168-278 | the error is the first failing check in order (state, count, range, CRC-32, times, box, end points, speed); any failure but a wrong state empties, success is READY and everything holds |
| WfbTraj.Traj.Seek | API/wfb_traj.c:352-358 | from any cursor position the two loops end at the segment that holds t |
| WfbTraj.Traj.Sample | API/wfb_traj.c:314-382 | the sample is Path at t, independent of the cursor left by earlier queries, and lies in the box; past the end DONE with the last point |
| WfbTraj.Traj.Start | API/wfb_traj.c:280-288 | READY to EXECUTING, nothing else |
| WfbTraj.Traj.Stop | API/wfb_traj.c:290-297 | EXECUTING to READY, nothing else |
| WfbTraj.Traj.Clear | API/wfb_traj.c:299-312 | every state other than EXECUTING goes to EMPTY |
| WfbPrim.LandingStays | API/wfb_prim.c:67-101 | a landing flight stays landing under steps and land commands and can neither take off nor fly a path |
| WfbPrim.LandWithinTimeout | API/wfb_prim.c:147-228 | whatever the estimates and the pad gate say, a pending landing has used exactly the time passed, never more than the timeout; beyond it the flight descends |
| WfbPrim.ReturnCloses | API/wfb_prim.c:151-166 | each step of the return leg brings the setpoint exactly rate times dt nearer the pad, or onto it |
| WfbPrim.StepKeeps | API/wfb_prim.c:113-241 | a step keeps landing, IDLE and TRAJ, and makes no landing pending that was not |
| WfbPrim.LandLands | API/wfb_prim.c:67-101 | a land command in any flying phase leaves the flight landing with its time not used up |
| WfbPrim.HoverIffSettled | API/wfb_prim.c:119-146 | from take-off the flight is in CLIMB until it has been within the settle radius of the hover point for the settle time without a break, and in HOVER from then on |
| WfbPrim.DwellsBegin | API/wfb_prim.c:37-146 | every take-off and every settle begins with no dwell on the clock, whatever flew before |
| WfbPrim.SettleEnds | API/wfb_prim.c:184-228 | a settle ends in HOVER exactly when it has been within the radius for the settle time without a break; a landing's ends in a descent onto the pad exactly when it has been so with the pad gate open or its time is up |
| WfbPrim.PhaseGraph | API/wfb_prim.c:38-241 | the phases that may follow each other, and that a command is accepted exactly in its phases and otherwise changes nothing |
| WfbPrim.SetpointsHold | API/wfb_prim.c:113-241 | the setpoint is over the pad at the hover height in every flying phase but a return leg, and in a descent one point from the tick it begins |
| WfbPrim.Sequencer.Tick | API/wfb_prim.c:113-241 | phase branches in place equal Step and Setpoint of the old state, NaN estimates included |
| WfbPrim.Sequencer.CmdLand | API/wfb_prim.c:67-89 | IDLE refuses; DESCEND stays; a return or settle already landing keeps its clock and one that is not becomes a landing with a fresh clock; any other phase starts the return leg from where the craft is |
| WfbPrim.Sequencer.CmdLandInPlace | API/wfb_prim.c:91-101 | IDLE refuses; DESCEND stays; any other phase descends, its point not frozen yet |
| WfbPrim.Sequencer.CmdTakeoff | API/wfb_prim.c:38-45 | IDLE only: CLIMB with no dwell counted |
| WfbPrim.Sequencer.CmdTrajBegin | API/wfb_prim.c:47-53 | HOVER only: TRAJ |
| WfbPrim.Sequencer.CmdTrajEnd | API/wfb_prim.c:55-65 | TRAJ only: a return leg from where the craft is, not a landing |
| WfbSafety.ActionLatches | API/wfb_safety.c:65-166 | over any run the action never decreases, a trip is on record exactly when an action is, and the fence pushes back only while no action is latched |
| WfbSafety.ActionIff | API/wfb_safety.c:65-166 | after any flight from switch-on, from what was measured alone: killed if and only if once tilted for the hold time; at least landed in place if and only if also once outside the fence with no ground station, or far outside, or for the hold time; at least returned if and only if also the battery once was low for its hold time, the link silent too long or the time in the air used up |
| WfbSafety.TiltHeldKills | API/wfb_safety.c:94-107 | tilted, or with no usable attitude, through a run of at least the hold time: killed |
| WfbSafety.FenceHeldLands | API/wfb_safety.c:109-133 | outside the fence or ceiling through a run of at least the hold time: landed in place |
| WfbSafety.PushIsInside | API/wfb_safety.c:47-63 | the pushed setpoint is inside the fence and on every violated axis lies between the pad and the vehicle: a move inwards that does not cross the pad |
| WfbSafety.SafetyNet.Step | API/wfb_safety.c:65-166 | five checks in order, in place, NaN and infinities included, equal 'raise to the strongest action called for, with its reason' |
| WfbGlue.RunKeeps | API/wfb_glue.c:111-452 | the glue invariant holds after every sequence of commands, ticks and disarms |
| WfbGlue.OneOwnerInStep | API/wfb_glue.c:165-232 | in every reachable state at most one of trajectory and program is non-EMPTY, prog_mode names it, a path executes exactly while the sequencer is in TRAJ, and every safety action has been applied |
| WfbGlue.SyncedKeeps | API/wfb_glue.c:396-415 | inside a tick the repair branches never run: a path changes state only by finishing in TRAJ |
| WfbGlue.LandingCommits | API/wfb_glue.c:111-125 | an accepted LAND of a flying sequencer, and every applied safety action, commits |
| WfbGlue.LandObeyed | API/wfb_glue.c:111-125 | LAND is accepted exactly in the air; a flying sequencer is then committed to landing, and without one every tick, but for a kill, orders the landing until a disarm |
| WfbGlue.HeightSet | API/wfb_glue.c:149-160 | the hover height changes only by SET_HOVER_Z, accepted exactly in IDLE for a number from 0.3 to 1.4; a landing order lasts until a disarm |
| WfbGlue.NoWayBack | API/wfb_glue.c:307-415 | once committed, CLIMB, HOVER and TRAJ are unreachable until a disarm, and after more than return_timeout_s of tick time the flight descends or has no sequencer |
| WfbGlue.OrdersAreSafe | API/wfb_glue.c:419-447 | a motor stop comes alone, no setpoint after a takeover, a take-off request only once in CLIMB, a descending flight is told to land |
| WfbGlue.OrdersServe | API/wfb_glue.c:419-447 | a kill stops armed motors and asks for nothing else; otherwise a setpoint is given exactly in a flying phase, with no takeover and no preset flying the hover, and a landing exactly in a descent or when asked for without a sequencer |
| WfbGlue.NetSees | API/wfb_glue.c:340-395 | the safety net is fed what the tick measured, the link's age only while the ground station flies; on the ground nothing trips it, and a silent link in the air lands |
| WfbGlue.ActionTaken | API/wfb_glue.c:321-338 | the moment the net goes up a level: a kill leaves no sequencer and no path, a landing in place descends, a landing by way of the pad is on its way or down, and without a sequencer the existing landing is asked for |
| WfbGlue.PilotTakesOver | API/wfb_glue.c:340-395 | the pilot's override ends sequencer, path, setpoints and take-off in that tick, and until a disarm |
| WfbGlue.LiftsOff | API/wfb_glue.c:128-145 | over all runs a flight begins only by a take-off command after a tick that saw the vehicle armed on the ground, motors idle and pilot link alive, with no takeover and no safety action |
| WfbGlue.PathStarts | API/wfb_glue.c:190-203 | a path begins only by a start command, accepted exactly in HOVER with the buffer's owner READY and, for a program, a finite heading |
| WfbGlue.Gluer.OnTick | API/wfb_glue.c:340-452 | takeover, safety step, applied action, path hand-over and sequencer step in place equal Ticked and OrdersOf |
| WfbGlue.Gluer.OnCommand | API/wfb_glue.c:127-232 | every command or disarm in place equals Next of the old state and keeps the invariant |
| WfbGlue.Gluer.ApplyAction | API/wfb_glue.c:321-338 | once per level the net has gone up: stop the path, then kill, land in place or land |
| WfbGlue.Gluer.OnLand | API/wfb_glue.c:111-125 | airborne only: paths are stopped; without a sequencer the existing landing is requested, otherwise the sequencer lands |
| WfbGlue.Gluer.OnTakeoff | API/wfb_glue.c:133-145 | only armed, idle on the ground, with a live link, no takeover and no safety action: the flight and its take-off request begin |
| WfbGlue.Gluer.OnTrajUpload | API/wfb_glue.c:165-217 | a begun trajectory clears the program and owns the buffer, refused while a program flies; a clear goes to the owner |
| WfbGlue.Gluer.OnProgUpload | API/wfb_glue.c:219-232 | a begun program clears the trajectory and owns the buffer, refused while a trajectory flies |
| WfbGlue.Gluer.OnStart | API/wfb_glue.c:190-203 | HOVER and a READY owner only, a program also a finite heading: the owner executes and the sequencer enters TRAJ |
| WfbGlue.Gluer.OnSetHoverZ | API/wfb_glue.c:151-159 | IDLE and 0.3 to 1.4 m only, NaN refused: the hover height in force |
| WfbGlue.Gluer.OnStop | API/wfb_glue.c:204-210 | an executing owner goes back to READY and a flight in TRAJ returns |
| WfbGlue.Gluer.OnDisarmed | API/wfb_glue.c:307-318 | paths stopped, sequencer, safety net and flight flags reset; uploads and hover height kept |
| WfbFlight.RunHolds | API/wfb_glue.c:111-452 | over every run of commands, uploads, ticks and disarms, under the default tables: what is loaded passed its checks from the hover height noted at its COMMIT, which is within 0.3 to 1.4 m |
| WfbFlight.FliesInBox | API/wfb_glue.c:151-232 | in every reachable state the loaded path lies in the limit box at every time: no hover height the ground station can set lets a program leave it |
| WfbFlight.SetpointInFence | API/wfb_glue.c:340-452 | in every reachable state, a tick that steers asks for a position inside the fence and under the ceiling, push-back included; on a return leg it does if the point the leg has got to is inside |
| WfbPrim.LegSpanned | API/wfb_prim.c:151-166 | the return leg's setpoint stays in the box between where it was and the pad |
| WfbFlight.LegNarrows | API/wfb_glue.c:340-452 | over any run that stays on a return leg, commands and safety actions included, its point stays in the box spanned by where it was and the pad |
| WfbFlight.ReturnInFence | API/wfb_glue.c:340-452 | in every reachable state: a return leg that was in the fence at any time asks for no position outside it afterwards, push-back included, whatever commands and estimates come in while it lasts |
| WfbFlight.LegBegins | API/wfb_glue.c:340-415 | a leg that a tick begins, at the end of a path or by a safety action, starts from the position the tick is given, NaN and infinities taken as 0 |
| WfbFlight.BeginsAtHover | API/wfb_glue.c:151-203 | in every reachable state, for a program START accepts that takes time: the first position asked for is the point the craft hovers at if and only if the last LINE before its first segment that takes time goes there, or, without such a LINE, the hover height is still the one of its COMMIT |
| WfbFlight.TrajBeginsNearHover | API/wfb_glue.c:151-203 | in every reachable state, for a trajectory START accepts: the first position asked for is its first point, within the end-point tolerance of where the craft hovers if the hover height is still that of its COMMIT, and outside it if the height has changed by more than twice the tolerance |
| WfbFlight.RaisedHoverDrops | API/wfb_glue.c:151-203 | a run that starts a program 0.9 m below the hovering craft: COMMIT at 0.5 m, SET_HOVER_Z to 1.4 m, take-off, settle, START |
| EventGroups.PackUnpacks | FreeRTOS/event_groups.c:93-104 | wanted bits and control bits share a list item value without disturbing each other |
| EventGroups.ClearingNeverMeets | FreeRTOS/event_groups.c:682-715 | clearing bits never completes a wait |
| EventGroups.WokenAndLeft | FreeRTOS/event_groups.c:553-612 | a waiter is woken exactly if old-or-new bits meet its condition, whatever the list order |
| EventGroups.NobodyLost | FreeRTOS/event_groups.c:553-612 | each waiter is woken or stays, once |
| EventGroups.ClearedBits | FreeRTOS/event_groups.c:590-616 | a bit is cleared exactly when some woken waiter wanted it and asked for clear on exit |
| EventBoard.ConditionIs | FreeRTOS/event_groups.c:682-715 | the test of a list item's masks and control bits, bit number by bit number: all the numbers asked for are set, or one of them |
| EventBoard.GroupIsBoard | FreeRTOS/event_groups.c:208-621 | in every run the group is a set of bit numbers and, for each blocked task, the numbers its call asked for: SetBits, WaitBits, Sync, ClearBits, time-outs and late checks do to them what their documentation says |
| EventBoard.NobodyLeftBehind | FreeRTOS/event_groups.c:208-621 | whoever is blocked was blocked by a WaitBits or Sync call of its own, and the bits do not fulfil what that call asked for |
| EventBoard.WaitEnds | FreeRTOS/event_groups.c:208-621 | a blocked task stays exactly as long as it does not time out and no step brings the bits to where what its call asked for is fulfilled |
| EventBoard.WaitBegins | FreeRTOS/event_groups.c:208-407 | a call blocks its task if and only if it is in order, may block, and the bits do not fulfil it |
| EventGroups.EventGroup.SetEventBits | FreeRTOS/event_groups.c:530-621 | the walk that removes while it goes equals SetBits; the woken carry old-or-new bits |
| EventGroups.EventGroup.WaitForBits | FreeRTOS/event_groups.c:324-407 | met, refused or blocked as WaitBits says |
| EventGroups.EventGroup.SyncOn | FreeRTOS/event_groups.c:208-263 | sets, wakes, and clears the rendezvous or blocks as SyncBits says |
| EventGroups.EventGroup.ClearEventBits | FreeRTOS/event_groups.c:472-497 | returns the bits before and clears the mask |
| EventGroups.EventGroup.AfterTimeOut | FreeRTOS/event_groups.c:426-453 | a timed-out task still takes bits set before it ran |
| Subscribe.CheckIsReadable | API/subscribe.c:114-446 | the tuple and range checks accept a range exactly when every aligned element lies in one readable region |
| Subscribe.ParseAccepts | API/subscribe.c:457-630 | an accepted request is a stop or a stream with readable ranges, a payload that fits and room on its link |
| Subscribe.CommittedReplaced | API/subscribe.c:857-870 | replacing a slot: the link's sum is the sum over the other slots plus the new stream |
| Subscribe.RequestKeeps | API/subscribe.c:849-889 | a request keeps every link within budget; a rejected one leaves the table unchanged |
| Subscribe.BudgetHolds | API/subscribe.c:448-629 | over any frames received and ticks in between, the streams of each link stay within that link's budget |
| Subscribe.LinkNotOversold | API/subscribe.c:448-844 | from any reachable table any n ticks put at most the link's budget a second, a byte a slot more, on that link, but for one frame a slot when n does not end its period: counted in bytes of frames, and in bits against the baud rate |
| Subscribe.OverBudgetIsReal | API/subscribe.c:595-618 | a request refused as over budget would, set up as asked, put more than the budget on its link in every whole period |
| Subscribe.SlotCadence | API/subscribe.c:448-844 | after any run, through any ticks and any requests that are rejected or set up other slots: an active slot keeps its stream and its counter advances exactly once every divider ticks |
| Subscribe.OncePerDivider | API/subscribe.c:766-776 | a slot with divider k advances its counter exactly once every k of its ticks |
| Subscribe.FrameFits | API/subscribe.c:675-728 | an admitted stream's frame always fits the buffer, and a receiver's CRC over it is zero |
| Subscribe.Telemetry.StreamTick | API/subscribe.c:742-844 | paced out: nothing; otherwise every due slot is served exactly once, with its own frame unless its link is backed up, each link given at most the frames due on it, none stays due, every clock moves on |
| Subscribe.Telemetry.ServeOne | API/subscribe.c:788-838 | the sweep from the cursor serves one due slot if there is one |
| Subscribe.Telemetry.BuildFrame | API/subscribe.c:675-728 | refused exactly if too long, otherwise header, payload and CRC of the stream |
| Subscribe.Telemetry.HandleRequest | API/subscribe.c:849-889 | sums the other slots, parses, stores only what was accepted |
| Subscribe.Telemetry.ParseRanges | API/subscribe.c:568-594 | the range loop stops at the first bad range or oversize payload |
| Subscribe.Telemetry.SumOthers | API/subscribe.c:857-868 | what all slots but the target commit on a link |
| StreamWire.OrderUnderstood | API/subscribe.c:457-630 | a request frame laid out as the header says stops the slot, or sets the stream up as ordered if and only if the slot, the link and the ranges can be served and the link has room |
| StreamWire.OnlyOrders | API/subscribe.c:457-630 | nobody else is listened to: whatever is accepted begins with the frame of an order, to the last byte |
| StreamWire.FrameRoundTrip | API/subscribe.c:675-728 | a data frame read as the header says gives back slot, counter, time and values |
| StreamWire.PayloadAt | API/subscribe.c:675-728 | the k-th byte of the i-th range is the byte of memory at its address plus k, after the ranges before it |
| CoRoutines.EmptyAtSwap | FreeRTOS/croutine.c:271-282 | the current delayed list is empty when the lists swap |
| CoRoutines.TickWakes | FreeRTOS/croutine.c:262-317 | across the tick-counter wrap a tick readies exactly the sleepers due at it |
| CoRoutines.DelayTracks | FreeRTOS/croutine.c:201-237 | the wrapped wake time and the list chosen stand for the absolute due tick |
| CoRoutines.PendingTracks | FreeRTOS/croutine.c:239-260 | readied by events: exactly the pending co-routines leave the delayed lists, in order |
| CoRoutines.RunTracks | FreeRTOS/croutine.c:201-317 | the lists stand for the absolute due ticks in every run |
| CoRoutines.WokenFromStart | FreeRTOS/croutine.c:201-317 | after any run from the creation of the lists: delayed by d (1 <= d < 2^32) and not woken by an event, a co-routine is asleep and not readied through d - 1 ticks and readied by the d-th, whatever else happens |
| CoRoutines.WokenAtTickD | FreeRTOS/croutine.c:201-317 | the same from any state whose lists stand for the absolute due ticks |
| CoRoutines.NoTicksAtWrap | FreeRTOS/croutine.c:201-237 | in any state: a delay of no ticks, which the callers rule out, would be over with the next tick except exactly at the last count before the wrap |
| CoRoutines.CoScheduler.AddToDelayed | FreeRTOS/croutine.c:201-229 | the running co-routine leaves its ready queue for the delayed list its wrapped wake time belongs to |
| CoRoutines.CoScheduler.CheckPendingReady | FreeRTOS/croutine.c:239-260 | the loop empties the pending list as PendingChecked says |
| CoRoutines.CoScheduler.WakeExpired | FreeRTOS/croutine.c:285-313 | the inner loop takes exactly the expired head of the list |
| CoRoutines.CoScheduler.CheckDelayed | FreeRTOS/croutine.c:262-317 | as many ticks as passed on 32 bits, each one Ticked |
| CoRoutines.CoScheduler.AddReady | FreeRTOS/croutine.c:109-116 | appended to its priority's queue; no queue above the top holds anyone |
| CoRoutines.CoScheduler.Select | FreeRTOS/croutine.c:328-337 | finds the highest priority with somebody ready, or that there is none |

## Left out

- EKF rounding and NaN: covariances are exact reals; float rounding and NaN propagation are not modelled.
- Camera-fix bookkeeping of `API/ekf_of.c` (`ext_pos_*`), its telemetry fields, and tuning tables.
- The controller step of `API/xy_ctrl.c` (ADRC, MPC, LQR, integrator, `XyCtrl_Track`): only delay, pipe and prediction are modelled.
- `tasks.c` and `list.h`: event-list and scheduler calls follow their documented effect; `listGET_OWNER_OF_NEXT_ENTRY` is not modelled.
- Mutexes with priority inheritance, queue sets, counting-semaphore give from interrupts, peek from interrupts, creation, deletion and tracing.
- QueueProtocol.NoLostWakeup: assumes that no lock count leaves int8 during the run; LockPaysUpTo127 says what happens when one does.
- Queue.Queue.Send: the retry loops and timeouts of the blocking calls are steps of QueueProtocol, not loops of this class.
- Usart3: frame, drop and peak counters, `Usart3_Stream_Busy`, and the DMA and UART registers.
- WfbRamp.RampRises: SINE ramps, because sine is not modelled.
- WfbAccel.PlanKeepsAccel: bounds the planned motion; a segment whose ramps exceed its length within the slack of 1e-4 is cut off at its length, and there the speed drops at once.
- WfbProg.Program.DeriveSeg: ARC and LISSA segments (trigonometry) are not modelled.
- WfbProg upload: staging, PUSH and the clear command; the running CRC over pushed segments is in Crc32.SegmentsAreMessage.
- WfbTraj.Traj.Append: a null buffer is not modelled.
- WfbGlue.Gluer.OnTick: tick length, heartbeat age and whether the path has ended are inputs, because the millisecond clocks (path clock stopped during a push-back, heartbeat reference) are not modelled; nor are the heading that setpoints carry and the mirrored status. Positions are in WfbFlight.SetpointInFence.
- WfbGlue.Gluer.OnTrajUpload: whether a payload passes its checks is an input here; WfbFlight computes the verdict of a COMMIT from the payload, given that count and checksum are right.
- WfbGlue.Gluer.OnProgUpload: likewise; every failure of an upload has one error code here.
- WfbGlue.Gluer.OnCommand: the heartbeat only restarts a clock that is an input; append, staging and CRC commands change nothing modelled here.
- WfbFlight.SetpointInFence: a return leg that begins outside the fence asks for positions outside it, since it starts wherever the craft is; ReturnInFence says from when on it does not.
- WfbLimits.VelocityMeant: for ramps that fit the length; within the slack a LINE is cut off at its end, as under WfbAccel.PlanKeepsAccel.
- EventGroups: deletion, and set or clear deferred from an interrupt to the timer task.
- Subscribe: the 0x20 request and reply, schema and error frames, telemetry mode, and the transports themselves.
- CoRoutines.CoScheduler.AddToDelayed: the optional insertion into an event list is not modelled, nor is creation; a ready queue is a plain sequence.
- Board and peripheral code, the platform registry, `API/mrac.c`, PID, calibration, arming, landing gate, flight state machine and RC input.
