/** The block versions at which the context's behaviour changes. */
module BlockVersions {
  const V2300: nat := 2300
  const V2310: nat := 2030100
  const V2312: nat := 2030102
  const V235: nat := 2030500
  const V2361: nat := 2030601
}
