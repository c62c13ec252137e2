/**
 * The Kakao user-info response, decoded into the fields the services read:
 * `kakao_account.email` and the `kakao_account.profile` map with its `nickname` and
 * `profile_image_url`. The profile map may be absent.
 */
module Kakao {
  import opened Wrappers

  datatype KakaoProfile = KakaoProfile(nickname: string, profileImageUrl: string)

  datatype KakaoAccount = KakaoAccount(email: string, profile: Option<KakaoProfile>)
}
