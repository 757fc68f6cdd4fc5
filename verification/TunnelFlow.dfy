/** The window sizes of backend/internal/tunnelflow/tunnelflow.go. */
module TunnelFlow {
  const WRITE_WINDOW_FRAMES: nat := 64
  const READ_BUF_FRAMES: nat := 256
  const READ_CREDIT_BATCH: nat := 16
  const MAX_CHUNK_BYTES: nat := 32 * 1024
  const MAX_WRITE_SEQ_LOOKAHEAD: nat := 256
  const INITIAL_READ_WINDOW: nat := 128
}
