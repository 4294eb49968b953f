/**
 * The verified identity the provider returns, and its access token
 * (digits.go, types `Identity` and `AccessToken`).
 */
module Identities {

  /** Go's `int`, taken as 64-bit; the JSON field `id` is decoded into it. */
  newtype int64 = x: int | -0x8000_0000_0000_0000 <= x < 0x8000_0000_0000_0000

  /** JSON object `access_token`: fields `token` and `secret`. */
  datatype AccessToken = AccessToken(token: string, secret: string)

  /** JSON fields `phone_number`, `id`, `id_str`, `verification_type`,
      `created_at` and `access_token`. */
  datatype Identity = Identity(
    phoneNumber: string,
    id: int64,
    idStr: string,
    verificationType: string,
    createdAt: string,
    accessToken: AccessToken)

  /** The zero value `Identity{}`: every field empty or zero. */
  const ZeroIdentity := Identity("", 0, "", "", "", AccessToken("", ""))
}
