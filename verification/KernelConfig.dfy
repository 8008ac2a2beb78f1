/** Build-time settings that the kernel leaves to FreeRTOSConfig.h. */
module KernelConfig {
  /** The number of values of TickType_t: ticks are 16 or 32 bits wide. */
  type Modulus = m: nat | m == 0x1_0000 || m == 0x1_0000_0000 witness 0x1_0000_0000

  const TICK_MODULUS: Modulus

  /** portMAX_DELAY. */
  const MAX_DELAY: nat := TICK_MODULUS - 1

  type Tick = t: nat | t < TICK_MODULUS witness 0

  type Levels = n: nat | 0 < n < 0x8000 witness 1

  /** configMAX_PRIORITIES. It fits an event item value beside the bit that marks one in use. */
  const MAX_PRIORITIES: Levels
}
